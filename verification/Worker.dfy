/** The handler that runs one scrape through the whole pipeline (internal/worker/handlers.go,
    internal/worker/store.go). */
module Worker {
  import opened Prices
  import opened DiffEngine
  import opened PriceStore
  import opened PendingMirror
  import opened Reconciler
  import opened CrashTransparency
  import opened Convergence

  /** The worker store's failures, and the id the models sequence would give each new slug. */
  datatype Io = Io(failedRows: set<nat>, newId: string -> int, models: bool, prices: bool, verify: bool)

  /** The model table after upserting the scraped rows that did not fail. */
  function Ensured(models: map<string, int>, scraped: seq<ScrapedModel>, io: Io): map<string, int> {
    if scraped == [] then models
    else
      var n := |scraped| - 1;
      var before, slug := Ensured(models, scraped[..n], io), scraped[n].slug;
      if n in io.failedRows || slug in before then before else before[slug := io.newId(slug)]
  }

  predicate AllFailed(n: nat, failed: set<nat>) {
    forall i :: 0 <= i < n ==> i in failed
  }

  /** The primary key of the models table. */
  predicate UniqueIds(models: map<string, int>) {
    forall a, b :: a in models && b in models && models[a] == models[b] ==> a == b
  }

  /** A scraped row has the slug and did not fail. */
  predicate IsUpserted(scraped: seq<ScrapedModel>, io: Io, slug: string) {
    exists i :: 0 <= i < |scraped| && i !in io.failedRows && scraped[i].slug == slug
  }

  /** Known models keep their ids; the slugs of rows that did not fail are known afterwards, the new ones
      under the ids the sequence gives them, and no others. */
  lemma {:induction false} EnsuredIs(models: map<string, int>, scraped: seq<ScrapedModel>, io: Io)
    ensures var e := Ensured(models, scraped, io);
            && (forall slug :: slug in models ==> slug in e && e[slug] == models[slug])
            && (forall slug :: slug in e <==> slug in models || IsUpserted(scraped, io, slug))
            && (forall slug :: slug in e && slug !in models ==> e[slug] == io.newId(slug))
  {
    if scraped != [] {
      var n := |scraped| - 1;
      EnsuredIs(models, scraped[..n], io);
      forall slug
        ensures IsUpserted(scraped, io, slug) <==>
                IsUpserted(scraped[..n], io, slug) || (n !in io.failedRows && scraped[n].slug == slug)
      {
        assert scraped == scraped[..n] + [scraped[n]];
        if i :| 0 <= i < n && i !in io.failedRows && scraped[..n][i].slug == slug {
          assert scraped[i].slug == slug;
        }
        if i :| 0 <= i < |scraped| && i !in io.failedRows && scraped[i].slug == slug {
          assert i < n ==> scraped[..n][i].slug == slug;
        }
      }
    }
  }

  // ---------------------------------------------------------------- what the diff engine is given

  ghost predicate ListsModels(ms: seq<StoredModel>, models: map<string, int>) {
    && (forall m :: m in ms ==> m.slug in models && models[m.slug] == m.id)
    && (forall slug :: slug in models ==> StoredModel(models[slug], slug) in ms)
  }

  function RowOf(key: RowKey, r: PriceRow): StoredPrice {
    StoredPrice(key.model, FromSteps(r.input), FromSteps(r.output))
  }

  /** The rows of one source, in any order. */
  ghost predicate ListsPrices(ps: seq<StoredPrice>, db: Db, source: string) {
    && (forall p :: p in ps ==> source in db.sources && RowKey(p.modelId, db.sources[source]) in db.prices
                                && p == RowOf(RowKey(p.modelId, db.sources[source]), db.prices[RowKey(p.modelId, db.sources[source])]))
    && (source in db.sources ==>
          forall k :: k in db.prices && k.source == db.sources[source] ==> RowOf(k, db.prices[k]) in ps)
  }

  lemma {:induction false} IdsAreListed(ms: seq<StoredModel>, models: map<string, int>)
    requires UniqueIds(models) && forall m :: m in ms ==> m.slug in models && models[m.slug] == m.id
    ensures forall m :: m in ms ==> m.id in IdToSlug(ms) && IdToSlug(ms)[m.id] == m.slug
    ensures forall id :: id in IdToSlug(ms) ==> StoredModel(id, IdToSlug(ms)[id]) in ms
  {
    if ms != [] {
      var n := |ms| - 1;
      assert ms == ms[..n] + [ms[n]];
      IdsAreListed(ms[..n], models);
    }
  }

  /** One side of the index: an entry is the row of its slug. */
  lemma {:induction false} IndexIsSound(ps: seq<StoredPrice>, ids: map<int, string>, slug: string)
    requires forall a, b :: a in ids && b in ids && ids[a] == ids[b] ==> a == b
    requires forall p, q :: p in ps && q in ps && p.modelId == q.modelId ==> p == q
    ensures slug in SlugIndex(ps, ids) <==> exists p :: p in ps && p.modelId in ids && ids[p.modelId] == slug
    ensures forall p :: p in ps && p.modelId in ids && ids[p.modelId] == slug ==>
              SlugIndex(ps, ids)[slug] == Costs(p.input, p.output)
  {
    if ps != [] {
      var n := |ps| - 1;
      assert ps == ps[..n] + [ps[n]];
      IndexIsSound(ps[..n], ids, slug);
      if p :| p in ps && p.modelId in ids && ids[p.modelId] == slug {
        assert p == ps[n] || p in ps[..n];
      }
    }
  }

  function IndexOf(db: Db, source: string): map<string, Costs> {
    if source in db.sources then TableIndex(db, db.sources[source]) else map[]
  }

  /** Joining the fetched rows by model id recovers the source's rows by slug. */
  lemma FetchedIndex(ms: seq<StoredModel>, ps: seq<StoredPrice>, db: Db, source: string)
    requires UniqueIds(db.models) && ListsModels(ms, db.models) && ListsPrices(ps, db, source)
    ensures SlugIndex(ps, IdToSlug(ms)) == IndexOf(db, source)
  {
    var ids, index := IdToSlug(ms), IndexOf(db, source);
    IdsAreListed(ms, db.models);
    forall slug
      ensures slug in SlugIndex(ps, ids) <==> slug in index
      ensures slug in index ==> SlugIndex(ps, ids)[slug] == index[slug]
    {
      IndexIsSound(ps, ids, slug);
      if slug in index {
        var key := RowKey(db.models[slug], db.sources[source]);
        assert StoredModel(db.models[slug], slug) in ms;
        assert RowOf(key, db.prices[key]) in ps;
      }
    }
  }

  // ---------------------------------------------------------------- the pipeline on values

  function SlugsIn(scraped: seq<ScrapedModel>): seq<string> {
    seq(|scraped|, i requires 0 <= i < |scraped| => scraped[i].slug)
  }

  function WithModels(w: World, models: map<string, int>): World {
    w.(st := w.st.(db := w.st.db.(models := models)))
  }

  predicate Reached(fetched: Option<seq<ScrapedModel>>, io: Io) {
    && fetched.Some? && fetched.value != []
    && !AllFailed(|fetched.value|, io.failedRows) && !io.models && !io.prices
  }

  function DiffsFor(db: Db, source: string, scraped: seq<ScrapedModel>): seq<PriceDiff> {
    DiffAll(IndexOf(db, source), scraped)
  }

  function AfterEnsure(w: World, fetched: Option<seq<ScrapedModel>>, io: Io): World {
    if fetched.None? then w else WithModels(w, Ensured(w.st.db.models, fetched.value, io))
  }

  /** One handler run: fetch, ensure models, diff, reconcile, stamp. */
  function Pipeline(w: World, source: string, fetched: Option<seq<ScrapedModel>>, io: Io,
                    env: Env, order: seq<GroupKey>): World
  {
    var w1 := AfterEnsure(w, fetched, io);
    if !Reached(fetched, io) then w1
    else
      var w2 := RunCycle(w1, Cycle(DiffsFor(w1.st.db, source, fetched.value), order, env));
      if io.verify then w2
      else w2.(st := w2.st.(db := Verify(w2.st.db, source, SlugsIn(fetched.value), env.verifyAt)))
  }

  class Handlers {
    const service: Service

    constructor (service: Service)
      ensures this.service == service
    {
      this.service := service;
    }

    /** A failed row is counted and skipped; only a batch that failed as a whole is an error. */
    method EnsureModels(scraped: seq<ScrapedModel>, io: Io) returns (err: bool)
      modifies service.store
      ensures err == AllFailed(|scraped|, io.failedRows)
      ensures service.store.Tables() ==
              old(service.store.Tables()).(models := Ensured(old(service.store.models), scraped, io))
      ensures var before, after := old(service.store.models), service.store.models;
              && (forall slug :: slug in before ==> slug in after && after[slug] == before[slug])
              && (forall slug :: slug in after <==> slug in before || IsUpserted(scraped, io, slug))
              && (forall slug :: slug in after && slug !in before ==> after[slug] == io.newId(slug))
    {
      EnsuredIs(service.store.models, scraped, io);
      var store, failures := service.store, 0;
      for i := 0 to |scraped|
        invariant 0 <= failures <= i && (failures == i <==> AllFailed(i, io.failedRows))
        invariant store.Tables() == old(store.Tables()).(models := Ensured(old(store.models), scraped[..i], io))
      {
        assert scraped[..i + 1][..i] == scraped[..i];
        var slug := scraped[i].slug;
        if i in io.failedRows {
          failures := failures + 1;
        } else if slug !in store.models {
          store.models := store.models[slug := io.newId(slug)];
        }
      }
      assert scraped[..|scraped|] == scraped;
      err := failures == |scraped|;
    }

    method FetchModels(fail: bool) returns (ms: Option<seq<StoredModel>>)
      ensures ms.None? <==> fail
      ensures ms.Some? ==> ListsModels(ms.value, service.store.models)
    {
      if fail {
        return None;
      }
      var rows: seq<StoredModel> := [];
      var models := service.store.models;
      var todo := models.Keys;
      while todo != {}
        invariant todo <= models.Keys
        invariant forall m :: m in rows ==> m.slug in models && models[m.slug] == m.id
        invariant forall slug :: slug in models && slug !in todo ==> StoredModel(models[slug], slug) in rows
        decreases todo
      {
        var slug :| slug in todo;
        todo := todo - {slug};
        rows := rows + [StoredModel(models[slug], slug)];
      }
      ms := Some(rows);
    }

    method FetchPricesBySource(source: string, fail: bool) returns (ps: Option<seq<StoredPrice>>)
      ensures ps.None? <==> fail
      ensures ps.Some? ==> ListsPrices(ps.value, service.store.Tables(), source)
    {
      if fail {
        return None;
      }
      var rows: seq<StoredPrice> := [];
      if source in service.store.sources {
        var prices, id := service.store.prices, service.store.sources[source];
        var todo := prices.Keys;
        while todo != {}
          invariant todo <= prices.Keys
          invariant forall p :: p in rows ==>
                      RowKey(p.modelId, id) in prices && p == RowOf(RowKey(p.modelId, id), prices[RowKey(p.modelId, id)])
          invariant forall k :: k in prices && k !in todo && k.source == id ==> RowOf(k, prices[k]) in rows
          decreases todo
        {
          var k :| k in todo;
          todo := todo - {k};
          if k.source == id {
            rows := rows + [RowOf(k, prices[k])];
          }
        }
      }
      ps := Some(rows);
    }

    /** A failed stamp is only logged. */
    method RunPipeline(source: string, fetched: Option<seq<ScrapedModel>>, io: Io, env: Env)
      returns (ok: bool, ghost order: seq<GroupKey>)
      requires UniqueIds(AfterEnsure(service.Snapshot(), fetched, io).st.db.models)
      modifies service, service.store
      ensures ok == Reached(fetched, io)
      ensures ok <==> fetched.Some? && !io.models && !io.prices && exists i :: 0 <= i < |fetched.value| && i !in io.failedRows
      ensures var db := AfterEnsure(old(service.Snapshot()), fetched, io).st.db;
              ok ==> var diffs := DiffsFor(db, source, fetched.value);
                     diffs != [] ==> IsOrder(order, Keys(ValidOf(db, Cycle(diffs, order, env))))
      ensures service.Snapshot() == Pipeline(old(service.Snapshot()), source, fetched, io, env, order)
    {
      order := [];
      if fetched.None? {
        return false, order;
      }
      var scraped := fetched.value;
      if |scraped| == 0 {
        return false, order;
      }
      var err := EnsureModels(scraped, io);
      if err {
        return false, order;
      }
      var ms := FetchModels(io.models);
      if ms.None? {
        return false, order;
      }
      var ps := FetchPricesBySource(source, io.prices);
      if ps.None? {
        return false, order;
      }
      FetchedIndex(ms.value, ps.value, service.store.Tables(), source);
      var diffs := Diff(ps.value, ms.value, scraped);
      order := service.Reconcile(diffs, env);
      service.store.MarkVerified(source, SlugsIn(scraped), env.verifyAt, io.verify);
      ok := true;
    }
  }

  // ---------------------------------------------------------------- the pipeline is the scan

  predicate Sound(io: Io) {
    io.failedRows == {} && !io.models && !io.prices && !io.verify
  }

  /** The ideal state once the models are ensured. */
  function Prepared(s: State, feed: Feed, io: Io): State {
    s.(db := s.db.(models := Ensured(s.db.models, feed.reports, io)))
  }

  /** A faultless handler run of a mortal process refines one scan of the ideal reconciler. */
  lemma PipelineIsScan(w: World, s: State, t: int, feed: Feed, io: Io, env: Env, order: seq<GroupKey>)
    requires Coupled(w, s, t) && Sound(io) && feed.reports != [] && GoodFeed(feed)
    requires var s1 := Prepared(s, feed, io);
             Over(feed, s1) && Clocked(Cycle(DiffsOf(feed, s1), order, env), t)
    ensures Coupled(Pipeline(w, feed.source, Some(feed.reports), io, env, order),
                    Scan(feed, Prepared(s, feed, io), order, env), TimeAfter(env, order))
  {
    var s1, w1 := Prepared(s, feed, io), AfterEnsure(w, Some(feed.reports), io);
    var c := Cycle(DiffsOf(feed, s1), order, env);
    assert 0 !in io.failedRows;
    assert Coupled(w1, s1, t);
    CycleStaysCoupled(w1, s1, t, c);
    assert SlugsIn(feed.reports) == SlugsOf(feed);
  }

  lemma {:induction false} KnownModelsStay(models: map<string, int>, scraped: seq<ScrapedModel>, io: Io)
    requires forall i :: 0 <= i < |scraped| ==> scraped[i].slug in models
    ensures Ensured(models, scraped, io) == models
  {
    if scraped != [] {
      KnownModelsStay(models, scraped[..|scraped| - 1], io);
    }
  }

  lemma PreparedAfterScan(feed: Feed, s: State, io: Io, order: seq<GroupKey>, env: Env)
    requires GoodFeed(feed) && Over(feed, s) && Faultless(env) && IsOrder(order, Keys(DiffsOf(feed, s)))
    ensures var s1 := Scan(feed, s, order, env);
            Over(feed, s1) && Prepared(s1, feed, io) == s1
  {
    OneScan(feed, s, order, env);
    KnownModelsStay(feed.models, feed.reports, io);
  }

  /** From any consistent process, tables and Redis hash: two handler runs over the same scrape,
      with or without a restart before either, settle every reported price, and a third run finds
      nothing to do exactly when the price columns can hold every reported price. */
  lemma TwoRunsSettle(w: World, t: int, feed: Feed, io: Io, restarts: (bool, bool),
                      env1: Env, order1: seq<GroupKey>, env2: Env, order2: seq<GroupKey>)
    requires CrashTransparency.Consistent(w, t) && Sound(io) && feed.reports != [] && GoodFeed(feed)
    requires Faultless(env1) && Faultless(env2) && forall k :: env2.sweepAt - PENDING_TTL <= env1.at(k)
    requires var s := Prepared(Meant(w, t), feed, io);
             && Over(feed, s)
             && IsOrder(order1, Keys(DiffsOf(feed, s))) && Clocked(Cycle(DiffsOf(feed, s), order1, env1), t)
             && var s1 := Scan(feed, s, order1, env1);
                && IsOrder(order2, Keys(DiffsOf(feed, s1)))
                && Clocked(Cycle(DiffsOf(feed, s1), order2, env2), TimeAfter(env1, order1))
    ensures var w0 := if restarts.0 then Restarted(w) else w;
            var w1 := Pipeline(w0, feed.source, Some(feed.reports), io, env1, order1);
            var w1' := if restarts.1 then Restarted(w1) else w1;
            var w2 := Pipeline(w1', feed.source, Some(feed.reports), io, env2, order2);
            && w2.st.db.models == feed.models && AllSettled(feed, w2.st)
            && (DiffsFor(w2.st.db, feed.source, feed.reports) == [] <==> AllRepresentable(feed))
  {
    var ideal := Meant(w, t);
    var s := Prepared(ideal, feed, io);
    var s1 := Scan(feed, s, order1, env1);
    var s2 := Scan(feed, s1, order2, env2);
    TwoScansConverge(feed, s, order1, env1, order2, env2);
    PreparedAfterScan(feed, s, io, order1, env1);
    ConsistentIsCoupled(w, t);
    var w1 := RunIsScan(w, ideal, t, feed, io, restarts.0, env1, order1);
    var w2 := RunIsScan(w1, s1, TimeAfter(env1, order1), feed, io, restarts.1, env2, order2);
    SettledByTables(feed, s2, w2.st);
  }

  lemma RunIsScan(w: World, s: State, t: int, feed: Feed, io: Io, restart: bool, env: Env, order: seq<GroupKey>)
    returns (w': World)
    requires Coupled(w, s, t) && Sound(io) && feed.reports != [] && GoodFeed(feed)
    requires var s1 := Prepared(s, feed, io);
             Over(feed, s1) && Clocked(Cycle(DiffsOf(feed, s1), order, env), t)
    ensures w' == Pipeline(if restart then Restarted(w) else w, feed.source, Some(feed.reports), io, env, order)
    ensures Coupled(w', Scan(feed, Prepared(s, feed, io), order, env), TimeAfter(env, order))
  {
    var w0 := if restart then Restarted(w) else w;
    assert Coupled(w0, s, t);
    PipelineIsScan(w0, s, t, feed, io, env, order);
    w' := Pipeline(w0, feed.source, Some(feed.reports), io, env, order);
  }

  lemma SettledByTables(feed: Feed, a: State, b: State)
    requires GoodFeed(feed) && Over(feed, a) && a.db == b.db && AllSettled(feed, a)
    ensures AllSettled(feed, b) && DiffsFor(b.db, feed.source, feed.reports) == DiffsOf(feed, a)
  {
    forall j, g | 0 <= j < |feed.reports|
      ensures Settled(feed, b, feed.reports[j], g)
    {
      assert Settled(feed, a, feed.reports[j], g);
    }
  }
}
