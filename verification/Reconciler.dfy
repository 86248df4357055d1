/** One reconcile cycle: hydrate, sweep, group, gate or consensus, publish
    (internal/reconciler/reconciler.go, internal/reconciler/pending.go). */
module Reconciler {
  import Folds
  import opened Prices
  import opened DiffEngine
  import opened PriceStore
  import opened MultiSource
  import opened PendingMirror
  import opened HistoryTruth

  datatype GroupKey = GroupKey(slug: string, field: PriceField)

  /** Which store calls fail while one group is processed. */
  datatype Faults = Faults(model: bool, lookup: bool, price: bool, publish: bool, flag: bool)

  /** Everything a cycle reads from outside: its clock readings and the store's failures. */
  datatype Env = Env(loadAt: int, sweepAt: int, at: GroupKey -> int, verifyAt: int,
                     faults: GroupKey -> Faults, badSources: set<string>)

  /** order is the order in which the map of groups was visited. */
  datatype Cycle = Cycle(diffs: seq<PriceDiff>, order: seq<GroupKey>, env: Env)

  /** Tables, pending map, and the log of committed writes. */
  datatype State = State(db: Db, pending: Pending, log: seq<Step>)

  /** A process with its Redis hash; `loaded` says whether pending was hydrated from the hash. */
  datatype World = World(st: State, loaded: bool, redis: RedisHash)

  // ---------------------------------------------------------------- grouping

  function KeyOf(d: PriceDiff): GroupKey {
    GroupKey(d.slug, d.field)
  }

  function SourceNames(diffs: seq<PriceDiff>): set<string> {
    set d | d in diffs :: d.source
  }

  function SourceIds(db: Db, diffs: seq<PriceDiff>, bad: set<string>): map<string, int> {
    map n | n in SourceNames(diffs) :: if n in bad || n !in db.sources then -1 else db.sources[n]
  }

  /** The diffs of sources that resolved. */
  function Valid(diffs: seq<PriceDiff>, ids: map<string, int>): seq<PriceDiff> {
    if diffs == [] then []
    else
      var rest, d := Valid(diffs[..|diffs| - 1], ids), diffs[|diffs| - 1];
      if IdOf(ids, d.source) < 0 then rest else rest + [d]
  }

  function GroupOf(diffs: seq<PriceDiff>, k: GroupKey): seq<PriceDiff> {
    if diffs == [] then []
    else
      var rest, d := GroupOf(diffs[..|diffs| - 1], k), diffs[|diffs| - 1];
      if KeyOf(d) == k then rest + [d] else rest
  }

  function Keys(diffs: seq<PriceDiff>): set<GroupKey> {
    set d | d in diffs :: KeyOf(d)
  }

  /** This cycle's last reported value of a (slug, field), or 0. */
  function CycleValue(diffs: seq<PriceDiff>, k: GroupKey): real {
    var g := GroupOf(diffs, k);
    if g == [] then 0.0 else g[|g| - 1].newValue
  }

  function Providers(g: seq<PriceDiff>): set<string> {
    set d | d in g :: EffectiveProvider(d)
  }

  ghost predicate IsOrder(order: seq<GroupKey>, keys: set<GroupKey>) {
    Folds.Enumerates(order, keys)
  }

  // ---------------------------------------------------------------- one group

  /** What publish writes: the new value, and for the other field the stored value or else the
      sibling value scraped in the same cycle. */
  function Completed(db: Db, key: RowKey, field: PriceField, f: PriceField, newValue: real,
                     sibling: real, lookupFails: bool): real
  {
    if f == field then newValue
    else
      var curr := if lookupFails || key !in db.prices then 0.0 else FromSteps(Column(db.prices[key], f));
      if curr <= 0.0 then sibling else curr
  }

  function PublishTo(s: State, key: RowKey, field: PriceField, newValue: real, confidence: Confidence,
                     underlying: string, sibling: real, now: int, f: Faults): State
  {
    var input := Completed(s.db, key, field, Input, newValue, sibling, f.price);
    var output := Completed(s.db, key, field, Output, newValue, sibling, f.price);
    if input <= 0.0 || output <= 0.0 || f.publish || !Fits(input) || !Fits(output) then s
    else s.(db := Publish(s.db, key, input, output, confidence, underlying, now),
            log := s.log + [PublishStep(key, input, output, confidence, underlying, now)])
  }

  /** What leaves the companion column of an existing row as it was: it was read and is positive, or the
      sibling value rounds to what it holds. */
  predicate CompanionStands(db: Db, key: RowKey, field: PriceField, sibling: real, lookupFails: bool)
    requires key in db.prices
  {
    var n := Column(db.prices[key], OtherField(field));
    (!lookupFails && n > 0) || ToSteps(sibling) == n
  }

  /** A publish that takes place on an existing row keeps its companion column if and only if so. */
  predicate CompanionRule(s: State, s': State, key: RowKey, field: PriceField, sibling: real, lookupFails: bool) {
    key in s.db.prices && s'.log != s.log ==>
      && key in s'.db.prices
      && (Column(s'.db.prices[key], OtherField(field)) == Column(s.db.prices[key], OtherField(field)) <==>
          CompanionStands(s.db, key, field, sibling, lookupFails))
  }

  lemma CompanionKeptIff(s: State, key: RowKey, field: PriceField, newValue: real, confidence: Confidence,
                         underlying: string, sibling: real, now: int, f: Faults)
    ensures CompanionRule(s, PublishTo(s, key, field, newValue, confidence, underlying, sibling, now, f),
                          key, field, sibling, f.price)
  {
    if key in s.db.prices {
      var n := Column(s.db.prices[key], OtherField(field));
      StoredSign(n);
      RereadSteps(n);
    }
  }

  function SingleKey(k: GroupKey, d: PriceDiff): string {
    PendingKey(k.slug, k.field, EffectiveProvider(d))
  }

  function SingleGate(s: State, k: GroupKey, key: RowKey, d: PriceDiff, now: int, f: Faults): Gated {
    Gate(s.pending, SingleKey(k, d), d.newValue, d.source, f.lookup || key in s.db.prices, now)
  }

  function Single(s: State, k: GroupKey, key: RowKey, d: PriceDiff, sibling: real, now: int, f: Faults): State {
    var g := SingleGate(s, k, key, d, now, f);
    var s' := s.(pending := g.pending);
    match g.verdict
    case Hold => s'
    case FirstSeen => PublishTo(s', key, k.field, d.newValue, Low, d.underlying, sibling, now, f)
    case Confirmed => PublishTo(s', key, k.field, d.newValue, Medium, d.underlying, sibling, now, f)
  }

  function Flagged(s: State, model: int, field: PriceField, d: Dispute, now: int, f: Faults): State {
    if f.flag || !Fits(d.a.value) || !Fits(d.b.value) then s
    else s.(db := Flag(s.db, model, d.a.source, d.b.source, field, d.a.value, d.b.value, d.delta),
            log := s.log + [FlagStep(model, d.a.source, d.b.source, field, d.a.value, d.b.value, d.delta, now)])
  }

  /** g is sorted by source. */
  function Multi(s: State, k: GroupKey, model: int, g: seq<PriceDiff>, ids: map<string, int>,
                 sibling: real, now: int, f: Faults): State
    requires g != []
  {
    var d := Decide(ValuesOf(g, ids));
    var s' := if d.flag.Some? then Flagged(s, model, k.field, d.flag.value, now, f) else s;
    match d.publish
    case None => s'
    case Some(c) =>
      PublishTo(s', RowKey(model, c.source), k.field, c.value, c.confidence, g[0].underlying, sibling, now, f)
  }

  /** Every price row that changed is of the model and of the source of one of the reports, and holds that
      report's value in the field. */
  ghost predicate WritesReports(a: Db, b: Db, model: int, field: PriceField, g: seq<PriceDiff>, ids: map<string, int>) {
    forall r :: r in b.prices && (r !in a.prices || b.prices[r] != a.prices[r]) ==>
      exists i :: 0 <= i < |g| && r == RowKey(model, IdOf(ids, g[i].source)) && Cell(b.prices, r, field) == ToSteps(g[i].newValue)
  }

  lemma PublishWritesReport(s: State, model: int, field: PriceField, g: seq<PriceDiff>, ids: map<string, int>, i: nat,
                            conf: Confidence, under: string, sibling: real, now: int, f: Faults)
    requires i < |g|
    ensures var s' := PublishTo(s, RowKey(model, IdOf(ids, g[i].source)), field, g[i].newValue, conf, under, sibling, now, f);
            WritesReports(s.db, s'.db, model, field, g, ids)
  {
  }

  lemma MultiWrites(s: State, k: GroupKey, model: int, g: seq<PriceDiff>, ids: map<string, int>, sibling: real, now: int, f: Faults)
    requires g != []
    ensures WritesReports(s.db, Multi(s, k, model, g, ids, sibling, now, f).db, model, k.field, g, ids)
  {
    var v := ValuesOf(g, ids);
    var d := Decide(v);
    if d.publish.Some? {
      var i: nat := 0;
      if |v| >= 2 {
        i := PublishedIsBacked(v);
      }
      var m := if d.flag.Some? then Flagged(s, model, k.field, d.flag.value, now, f) else s;
      PublishWritesReport(m, model, k.field, g, ids, i, d.publish.value.confidence, g[0].underlying, sibling, now, f);
    }
  }

  function Sorted(valid: seq<PriceDiff>, k: GroupKey): seq<PriceDiff> {
    SortBySource(GroupOf(valid, k))
  }

  function Sibling(valid: seq<PriceDiff>, k: GroupKey): real {
    CycleValue(valid, GroupKey(k.slug, OtherField(k.field)))
  }

  /** The group reaches the single-source gate: its diffs share one underlying provider. */
  predicate IsSingle(g: seq<PriceDiff>) {
    |g| < 2 || |Providers(g)| < 2
  }

  /** All reports name the same provider: the underlying one, or the source where there is none. */
  predicate OneName(g: seq<PriceDiff>) {
    forall i, j :: 0 <= i < j < |g| ==>
      (if |g[i].underlying| > 0 then g[i].underlying else g[i].source) ==
      (if |g[j].underlying| > 0 then g[j].underlying else g[j].source)
  }

  lemma SingleIff(g: seq<PriceDiff>)
    ensures IsSingle(g) <==> OneName(g)
  {
    if OneName(g) && g != [] {
      forall p | p in Providers(g)
        ensures p in {EffectiveProvider(g[0])}
      {
        var i :| 0 <= i < |g| && EffectiveProvider(g[i]) == p;
        assert i > 0 ==> EffectiveProvider(g[0]) == EffectiveProvider(g[i]);
      }
      Folds.SubsetSize(Providers(g), {EffectiveProvider(g[0])});
    } else if !OneName(g) {
      var i, j :| 0 <= i < j < |g| && EffectiveProvider(g[i]) != EffectiveProvider(g[j]);
      assert g[i] in g && g[j] in g;
      Folds.SubsetSize({EffectiveProvider(g[i]), EffectiveProvider(g[j])}, Providers(g));
    }
  }

  lemma SortedProviders(valid: seq<PriceDiff>, k: GroupKey)
    ensures |Sorted(valid, k)| == |GroupOf(valid, k)| && Providers(Sorted(valid, k)) == Providers(GroupOf(valid, k))
  {
    SortSorts(GroupOf(valid, k));
    assert forall d :: d in Sorted(valid, k) <==> d in multiset(Sorted(valid, k));
    assert forall d :: d in GroupOf(valid, k) <==> d in multiset(GroupOf(valid, k));
  }

  /** Where one group goes: reports of one provider never reach the review queue, and reports of several
      never touch the pending map or its mirror. */
  ghost predicate Routed(w: World, w': World, g: seq<PriceDiff>) {
    if OneName(g) then w'.st.db.review == w.st.db.review
    else w'.st.pending == w.st.pending && w'.redis == w.redis
  }

  lemma SingleKeepsReview(s: State, k: GroupKey, key: RowKey, d: PriceDiff, sibling: real, now: int, f: Faults)
    ensures Single(s, k, key, d, sibling, now, f).db.review == s.db.review
  {
  }

  lemma MultiKeepsPending(s: State, k: GroupKey, model: int, g: seq<PriceDiff>, ids: map<string, int>,
                          sibling: real, now: int, f: Faults)
    requires g != []
    ensures Multi(s, k, model, g, ids, sibling, now, f).pending == s.pending
  {
  }

  lemma VisitIsRouted(w: World, valid: seq<PriceDiff>, ids: map<string, int>, env: Env, k: GroupKey)
    ensures Routed(w, StepWorld1(w, valid, ids, env, k), GroupOf(valid, k))
  {
    SortedProviders(valid, k);
    SingleIff(GroupOf(valid, k));
    var s, g, f, now := w.st, Sorted(valid, k), env.faults(k), env.at(k);
    if !Skipped(s, valid, k, f) {
      if IsSingle(g) {
        SingleKeepsReview(s, k, RowKey(s.db.models[k.slug], IdOf(ids, g[0].source)), g[0], Sibling(valid, k), now, f);
      } else {
        MultiKeepsPending(s, k, s.db.models[k.slug], g, ids, Sibling(valid, k), now, f);
      }
    }
  }

  predicate Skipped(s: State, valid: seq<PriceDiff>, k: GroupKey, f: Faults) {
    Sorted(valid, k) == [] || f.model || k.slug !in s.db.models
  }

  function Step1(s: State, valid: seq<PriceDiff>, ids: map<string, int>, env: Env, k: GroupKey): State {
    var g, f, now := Sorted(valid, k), env.faults(k), env.at(k);
    if Skipped(s, valid, k, f) then s
    else
      var model := s.db.models[k.slug];
      if IsSingle(g) then
        Single(s, k, RowKey(model, IdOf(ids, g[0].source)), g[0], Sibling(valid, k), now, f)
      else Multi(s, k, model, g, ids, Sibling(valid, k), now, f)
  }

  /** The mirror operation that follows the gate of a single-source group. */
  function Mirror1(s: State, h: RedisHash, valid: seq<PriceDiff>, ids: map<string, int>, env: Env, k: GroupKey): RedisHash {
    var g, f, now := Sorted(valid, k), env.faults(k), env.at(k);
    if Skipped(s, valid, k, f) || !IsSingle(g) then h
    else
      var key := RowKey(s.db.models[k.slug], IdOf(ids, g[0].source));
      ApplyMirror(h, SingleKey(k, g[0]), SingleGate(s, k, key, g[0], now, f).mirror, now)
  }

  // ---------------------------------------------------------------- a cycle

  function Steps(s: State, valid: seq<PriceDiff>, ids: map<string, int>, env: Env, order: seq<GroupKey>): State {
    if order == [] then s
    else
      var n := |order| - 1;
      Step1(Steps(s, valid, ids, env, order[..n]), valid, ids, env, order[n])
  }

  function StepsWorld(w: World, valid: seq<PriceDiff>, ids: map<string, int>, env: Env, order: seq<GroupKey>): World {
    if order == [] then w
    else
      var n := |order| - 1;
      StepWorld1(StepsWorld(w, valid, ids, env, order[..n]), valid, ids, env, order[n])
  }

  function StepWorld1(w: World, valid: seq<PriceDiff>, ids: map<string, int>, env: Env, k: GroupKey): World {
    World(Step1(w.st, valid, ids, env, k), w.loaded, Mirror1(w.st, w.redis, valid, ids, env, k))
  }

  /** Memory entries win over loaded ones; stale ones are not loaded. */
  function Loaded(w: World, now: int): World {
    if w.loaded then w
    else World(w.st.(pending := Live(HGetAll(w.redis, now), now) + w.st.pending), true, w.redis)
  }

  function StaleKeys(m: Pending, now: int): set<string> {
    set k | k in m && Stale(m[k], now)
  }

  function Swept(w: World, now: int): World {
    var stale := StaleKeys(w.st.pending, now);
    World(w.st.(pending := w.st.pending - stale), w.loaded,
          if stale == {} then w.redis else HDel(w.redis, stale, now))
  }

  function ValidOf(db: Db, c: Cycle): seq<PriceDiff> {
    Valid(c.diffs, SourceIds(db, c.diffs, c.env.badSources))
  }

  /** A whole Reconcile call. */
  function RunCycle(w: World, c: Cycle): World {
    if c.diffs == [] then w
    else
      var ids := SourceIds(w.st.db, c.diffs, c.env.badSources);
      StepsWorld(Swept(Loaded(w, c.env.loadAt), c.env.sweepAt), Valid(c.diffs, ids), ids, c.env, c.order)
  }

  // ---------------------------------------------------------------- the object

  /** The Reconciler object with a Redis client attached. */
  class Service {
    const store: PgStore
    var pending: Pending
    var pendingLoaded: bool
    var redis: RedisHash
    ghost var log: seq<Step>

    constructor (store: PgStore, redis: RedisHash)
      ensures this.store == store && pending == map[] && !pendingLoaded && this.redis == redis && log == []
    {
      this.store := store;
      pending, pendingLoaded, this.redis, log := map[], false, redis, [];
    }

    ghost function Snapshot(): World
      reads this, store
    {
      World(State(store.Tables(), pending, log), pendingLoaded, redis)
    }

    method LoadPendingFromRedis(now: int)
      modifies this
      ensures Snapshot() == Loaded(old(Snapshot()), now)
      ensures old(pendingLoaded) ==> pending == old(pending)
      ensures !old(pendingLoaded) ==>
                && (forall k :: k in pending <==> k in old(pending) || IsFresh(redis, k, now))
                && (forall k :: k in pending ==> pending[k] == if k in old(pending) then old(pending)[k] else redis.entries[k])
    {
      if pendingLoaded {
        return;
      }
      var entries := HGetAll(redis, now);
      ghost var start := pending;
      var todo := entries.Keys;
      while todo != {}
        invariant todo <= entries.Keys
        invariant pending == Live(TakenFrom(entries, todo), now) + start
        invariant !pendingLoaded && redis == old(redis) && log == old(log)
        decreases todo
      {
        var key :| key in todo;
        if !Stale(entries[key], now) && key !in pending {
          pending := pending[key := entries[key]];
        }
        LoadOne(entries, todo, key, start, now);
        todo := todo - {key};
      }
      assert TakenFrom(entries, todo) == entries;
      pendingLoaded := true;
    }

    method SweepStalePending(now: int)
      modifies this
      ensures Snapshot() == Swept(old(Snapshot()), now)
      ensures forall k :: k in pending <==> k in old(pending) && SeenLately(old(pending)[k], now)
      ensures forall k :: k in pending ==> pending[k] == old(pending)[k]
      ensures forall k :: Reads(redis, k, now) == if k in old(pending) && k !in pending then None else Reads(old(redis), k, now)
    {
      var swept: set<string> := {};
      var before := pending;
      var todo := pending.Keys;
      while todo != {}
        invariant todo <= before.Keys && swept <= before.Keys - todo
        invariant swept == (set k | k in before && k !in todo && Stale(before[k], now))
        invariant pending == before - swept
        invariant redis == old(redis) && log == old(log) && pendingLoaded == old(pendingLoaded)
        decreases todo
      {
        var k :| k in todo;
        todo := todo - {k};
        if Stale(before[k], now) {
          pending := pending - {k};
          swept := swept + {k};
        }
      }
      assert swept == StaleKeys(before, now);
      if swept != {} {
        redis := HDel(redis, swept, now);
      }
    }

    method PublishPrice(key: RowKey, field: PriceField, newValue: real, confidence: Confidence,
                        underlying: string, sibling: real, now: int, f: Faults)
      modifies this`log, store
      ensures Snapshot() == old(Snapshot()).(st := PublishTo(old(Snapshot()).st, key, field, newValue, confidence,
                                                       underlying, sibling, now, f))
      ensures CompanionRule(old(Snapshot()).st, Snapshot().st, key, field, sibling, f.price)
    {
      CompanionKeptIff(Snapshot().st, key, field, newValue, confidence, underlying, sibling, now, f);
      var currInput, currOutput, found, err := store.LookupCurrentPrice(key, f.price);
      var input, output;
      match field {
        case Input =>
          input, output := newValue, currOutput;
          if output <= 0.0 {
            output := sibling;
          }
        case Output =>
          input, output := currInput, newValue;
          if input <= 0.0 {
            input := sibling;
          }
      }
      if input <= 0.0 || output <= 0.0 {
        return;
      }
      var ok := store.PublishPrice(key, input, output, confidence, underlying, now, f.publish);
      if ok {
        log := log + [PublishStep(key, input, output, confidence, underlying, now)];
      }
    }

    method ProcessSingleSource(k: GroupKey, model: int, d: PriceDiff, sourceId: int,
                               sibling: real, now: int, f: Faults)
      modifies this, store
      ensures var w, key := old(Snapshot()), RowKey(model, sourceId);
              Snapshot() == World(
                Single(w.st, k, key, d, sibling, now, f), w.loaded,
                ApplyMirror(w.redis, SingleKey(k, d), SingleGate(w.st, k, key, d, now, f).mirror, now))
    {
      var key := PendingKey(k.slug, k.field, EffectiveProvider(d));
      var row := RowKey(model, sourceId);
      var _, _, found, err := store.LookupCurrentPrice(row, f.lookup);
      if err {
        found := true;
      }
      var confirmed, firstSeen := false, false;
      var mirror := NoOp;
      if !found && key !in pending {
        firstSeen := true;
      } else if key in pending && Abs(pending[key].value - d.newValue) < EPSILON {
        var entry := pending[key].(count := pending[key].count + 1, lastSeen := now);
        if entry.count >= 2 {
          confirmed := true;
          pending := pending - {key};
          mirror := Remove;
        } else {
          pending := pending[key := entry];
          mirror := Persist(entry);
        }
      } else {
        var entry := Entry(d.newValue, d.source, 1, now);
        pending := pending[key := entry];
        mirror := Persist(entry);
      }
      match mirror {
        case NoOp =>
        case Persist(e) => redis := HSetExpire(redis, key, e, now);
        case Remove => redis := HDel(redis, {key}, now);
      }
      if firstSeen {
        PublishPrice(row, k.field, d.newValue, Low, d.underlying, sibling, now, f);
      } else if confirmed {
        PublishPrice(row, k.field, d.newValue, Medium, d.underlying, sibling, now, f);
      }
    }

    method ProcessMultiSource(k: GroupKey, model: int, g: seq<PriceDiff>, ids: map<string, int>,
                              sibling: real, now: int, f: Faults)
      requires g != []
      modifies this`log, store
      ensures Snapshot() == old(Snapshot()).(st := Multi(old(Snapshot()).st, k, model, g, ids, sibling, now, f))
      ensures WritesReports(old(store.Tables()), store.Tables(), model, k.field, g, ids)
    {
      MultiWrites(Snapshot().st, k, model, g, ids, sibling, now, f);
      var d := Evaluate(ValuesOf(g, ids));
      if d.flag.Some? {
        var p := d.flag.value;
        store.FlagDiscrepancy(model, p.a.source, p.b.source, k.field, p.a.value, p.b.value, p.delta, f.flag);
        if !f.flag && Fits(p.a.value) && Fits(p.b.value) {
          log := log + [FlagStep(model, p.a.source, p.b.source, k.field, p.a.value, p.b.value, p.delta, now)];
        }
      }
      if d.publish.Some? {
        var c := d.publish.value;
        PublishPrice(RowKey(model, c.source), k.field, c.value, c.confidence, g[0].underlying, sibling, now, f);
      }
    }

    method ResolveSources(diffs: seq<PriceDiff>, bad: set<string>) returns (ids: map<string, int>)
      ensures ids == SourceIds(store.Tables(), diffs, bad)
    {
      ids := map[];
      for i := 0 to |diffs|
        invariant ids == SourceIds(store.Tables(), diffs[..i], bad)
      {
        var d := diffs[i];
        assert diffs[..i + 1] == diffs[..i] + [d];
        assert SourceNames(diffs[..i + 1]) == SourceNames(diffs[..i]) + {d.source};
        if d.source !in ids {
          var id := store.LookupSourceID(d.source, d.source in bad);
          ids := ids[d.source := if id.Some? then id.value else -1];
        }
      }
      assert diffs[..|diffs|] == diffs;
    }

    method GroupDiffs(diffs: seq<PriceDiff>, ids: map<string, int>)
      returns (groups: map<GroupKey, seq<PriceDiff>>, cycleVals: map<GroupKey, real>)
      ensures Grouped(groups, cycleVals, Valid(diffs, ids))
    {
      groups, cycleVals := map[], map[];
      ghost var valid: seq<PriceDiff> := [];
      for i := 0 to |diffs|
        invariant valid == Valid(diffs[..i], ids) && Grouped(groups, cycleVals, valid)
      {
        var d := diffs[i];
        assert diffs[..i + 1][..i] == diffs[..i];
        if IdOf(ids, d.source) >= 0 {
          var k := GroupKey(d.slug, d.field);
          ExtendGroups(groups, cycleVals, valid, d);
          groups := groups[k := (if k in groups then groups[k] else []) + [d]];
          cycleVals := cycleVals[k := d.newValue];
          valid := valid + [d];
        }
      }
      assert diffs[..|diffs|] == diffs;
    }

    method VisitGroup(k: GroupKey, groups: map<GroupKey, seq<PriceDiff>>, cycleVals: map<GroupKey, real>,
                      ids: map<string, int>, env: Env, ghost valid: seq<PriceDiff>)
      requires Grouped(groups, cycleVals, valid) && k in groups
      modifies this, store
      ensures Snapshot() == StepWorld1(old(Snapshot()), valid, ids, env, k)
      ensures Routed(old(Snapshot()), Snapshot(), groups[k])
    {
      VisitIsRouted(Snapshot(), valid, ids, env, k);
      SortSorts(groups[k]);
      GroupNotEmpty(valid, k);
      var f, now := env.faults(k), env.at(k);
      var model := store.LookupModelID(k.slug, f.model);
      if model == None {
        return;
      }
      var other := GroupKey(k.slug, OtherField(k.field));
      NoValueOutside(valid, other);
      var sibling := if other in cycleVals then cycleVals[other] else 0.0;
      var g := SortBySource(groups[k]);
      if |g| >= 2 && |Providers(g)| >= 2 {
        ProcessMultiSource(k, model.value, g, ids, sibling, now, f);
      } else {
        ProcessSingleSource(k, model.value, g[0], IdOf(ids, g[0].source), sibling, now, f);
      }
    }

    /** Ranging over a Go map: the next group is any one not visited yet. */
    method VisitAll(groups: map<GroupKey, seq<PriceDiff>>, cycleVals: map<GroupKey, real>,
                    ids: map<string, int>, env: Env, ghost valid: seq<PriceDiff>)
      returns (ghost order: seq<GroupKey>)
      requires Grouped(groups, cycleVals, valid)
      modifies this, store
      ensures IsOrder(order, Keys(valid))
      ensures Snapshot() == StepsWorld(old(Snapshot()), valid, ids, env, order)
    {
      order := [];
      var todo := groups.Keys;
      while todo != {}
        invariant todo <= groups.Keys && IsOrder(order, groups.Keys - todo)
        invariant Snapshot() == StepsWorld(old(Snapshot()), valid, ids, env, order)
        decreases todo
      {
        var k :| k in todo;
        Folds.EnumerateOneMore(order, groups.Keys - todo, k);
        assert groups.Keys - todo + {k} == groups.Keys - (todo - {k});
        todo := todo - {k};
        VisitGroup(k, groups, cycleVals, ids, env, valid);
        StepsExtend(old(Snapshot()), valid, ids, env, order, k);
        order := order + [k];
      }
      assert groups.Keys - todo == groups.Keys;
    }

    method Reconcile(diffs: seq<PriceDiff>, env: Env) returns (ghost order: seq<GroupKey>)
      modifies this, store
      ensures diffs != [] ==> IsOrder(order, Keys(ValidOf(old(store.Tables()), Cycle(diffs, order, env))))
      ensures Snapshot() == RunCycle(old(Snapshot()), Cycle(diffs, order, env))
    {
      order := [];
      if |diffs| == 0 {
        return;
      }
      LoadPendingFromRedis(env.loadAt);
      SweepStalePending(env.sweepAt);
      var ids := ResolveSources(diffs, env.badSources);
      var groups, cycleVals := GroupDiffs(diffs, ids);
      order := VisitAll(groups, cycleVals, ids, env, Valid(diffs, ids));
    }

    /** The process dies between cycles and a new one starts; Redis and the tables stay. */
    method Restart()
      modifies this
      ensures Snapshot() == Restarted(old(Snapshot()))
    {
      pending, pendingLoaded := map[], false;
    }
  }

  /** The hash holds an entry of the key that was seen within 72 hours. */
  predicate IsFresh(h: RedisHash, key: string, now: int) {
    Reads(h, key, now).Some? && SeenLately(Reads(h, key, now).value, now)
  }

  /** The entries already taken from the hash. */
  function TakenFrom(entries: Pending, todo: set<string>): Pending {
    map k | k in entries && k !in todo :: entries[k]
  }

  lemma LoadOne(entries: Pending, todo: set<string>, key: string, start: Pending, now: int)
    requires key in todo && todo <= entries.Keys
    ensures var p := Live(TakenFrom(entries, todo), now) + start;
            Live(TakenFrom(entries, todo - {key}), now) + start ==
            if !Stale(entries[key], now) && key !in p then p[key := entries[key]] else p
  {
    var v, v' := TakenFrom(entries, todo), TakenFrom(entries, todo - {key});
    assert v' == v[key := entries[key]];
    assert Live(v', now) == if Stale(entries[key], now) then Live(v, now) else Live(v, now)[key := entries[key]];
  }

  lemma StepsExtend(w: World, valid: seq<PriceDiff>, ids: map<string, int>, env: Env, order: seq<GroupKey>, k: GroupKey)
    ensures StepsWorld(w, valid, ids, env, order + [k]) == StepWorld1(StepsWorld(w, valid, ids, env, order), valid, ids, env, k)
  {
    assert (order + [k])[..|order|] == order;
  }

  function Restarted(w: World): World {
    World(w.st.(pending := map[]), false, w.redis)
  }

  ghost predicate Grouped(groups: map<GroupKey, seq<PriceDiff>>, cycleVals: map<GroupKey, real>, valid: seq<PriceDiff>) {
    && groups.Keys == Keys(valid) && cycleVals.Keys == Keys(valid)
    && forall k :: k in groups ==> groups[k] == GroupOf(valid, k) && cycleVals[k] == CycleValue(valid, k)
  }

  lemma ExtendGroups(groups: map<GroupKey, seq<PriceDiff>>, cycleVals: map<GroupKey, real>,
                     valid: seq<PriceDiff>, d: PriceDiff)
    requires Grouped(groups, cycleVals, valid)
    ensures var k := KeyOf(d);
            Grouped(groups[k := (if k in groups then groups[k] else []) + [d]], cycleVals[k := d.newValue], valid + [d])
  {
    var k := KeyOf(d);
    var groups' := groups[k := (if k in groups then groups[k] else []) + [d]];
    var vals' := cycleVals[k := d.newValue];
    assert Keys(valid + [d]) == Keys(valid) + {k};
    forall x | x in groups'
      ensures groups'[x] == GroupOf(valid + [d], x) && vals'[x] == CycleValue(valid + [d], x)
    {
      ExtendGroup(groups, cycleVals, valid, d, x);
    }
  }

  lemma ExtendGroup(groups: map<GroupKey, seq<PriceDiff>>, cycleVals: map<GroupKey, real>,
                    valid: seq<PriceDiff>, d: PriceDiff, x: GroupKey)
    requires Grouped(groups, cycleVals, valid) && (x in groups || x == KeyOf(d))
    ensures GroupOf(valid + [d], x) ==
            if x == KeyOf(d) then (if x in groups then groups[x] else []) + [d] else groups[x]
    ensures CycleValue(valid + [d], x) == if x == KeyOf(d) then d.newValue else cycleVals[x]
  {
    GroupNotEmpty(valid, x);
    LastOfGroup(valid, d, x);
  }

  lemma LastOfGroup(valid: seq<PriceDiff>, d: PriceDiff, x: GroupKey)
    ensures GroupOf(valid + [d], x) == if KeyOf(d) == x then GroupOf(valid, x) + [d] else GroupOf(valid, x)
    ensures CycleValue(valid + [d], x) == if KeyOf(d) == x then d.newValue else CycleValue(valid, x)
  {
    assert (valid + [d])[..|valid|] == valid;
  }

  lemma GrowGroups(valid: seq<PriceDiff>, d: PriceDiff)
    ensures Keys(valid + [d]) == Keys(valid) + {KeyOf(d)}
    ensures forall k :: GroupOf(valid + [d], k) ==
                        if KeyOf(d) == k then GroupOf(valid, k) + [d] else GroupOf(valid, k)
  {
    assert (valid + [d])[..|valid|] == valid;
  }

  lemma {:induction false} GroupNotEmpty(valid: seq<PriceDiff>, k: GroupKey)
    ensures GroupOf(valid, k) != [] <==> k in Keys(valid)
  {
    if valid != [] {
      var n := |valid| - 1;
      GroupNotEmpty(valid[..n], k);
      assert valid == valid[..n] + [valid[n]];
      GrowGroups(valid[..n], valid[n]);
    }
  }

  lemma NoValueOutside(valid: seq<PriceDiff>, k: GroupKey)
    ensures k !in Keys(valid) ==> CycleValue(valid, k) == 0.0
  {
    GroupNotEmpty(valid, k);
  }
}
