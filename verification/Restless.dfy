/** A price that its column cannot hold is published again and again: the stored price stays, the
    append-only history grows (internal/worker/handlers.go, internal/diff/diff.go,
    internal/reconciler/reconciler.go, migrations/000005_create_price_history.up.sql). */
module Restless {
  import opened Prices
  import opened DiffEngine
  import opened PriceStore
  import opened PendingMirror
  import opened MultiSource
  import opened Reconciler
  import opened CrashTransparency
  import opened Convergence
  import opened PipelineHistory

  /** Field g of report j is one that its column cannot hold. */
  predicate Lost(w: Feed, j: nat, g: PriceField) {
    j < |w.reports| && !Representable(Reported(w.reports[j], g))
  }

  lemma LostIsReported(w: Feed, s: State, j: nat, g: PriceField)
    requires GoodFeed(w) && Over(w, s) && Lost(w, j, g)
    ensures GroupKey(w.reports[j].slug, g) in Keys(DiffsOf(w, s)) && DiffsOf(w, s) != []
  {
    CloseIff(w, s, w.reports[j], g);
    MovedGroups(w, s, j, g);
  }

  // ---------------------------------------------------------------- a feed that never rests

  /** A reported price that rounds to 0.0000000002. */
  const BETWEEN_STEPS: real := 0.00000000015

  /** One model whose two prices lie between two storage steps. */
  function SmallFeed(): Feed {
    Feed("s", 1, [ScrapedModel("m", BETWEEN_STEPS, BETWEEN_STEPS, "s", "")], map["m" := 1])
  }

  /** Its table after the price was stored. */
  function SmallState(): State {
    State(Db(map["m" := 1], map["s" := 1], map[RowKey(1, 1) := PriceRow(2, 2, Medium, 0, None, None)],
             [HistoryRow(RowKey(1, 1), 2, 2, 0, None, ByReconciler)], []), map[], [])
  }

  lemma BetweenStepsIsLost()
    ensures BETWEEN_STEPS > EPSILON && Fits(BETWEEN_STEPS) && ToSteps(BETWEEN_STEPS) == 2 && !Representable(BETWEEN_STEPS)
  {
    assert BETWEEN_STEPS * STEPS_PER_UNIT == 1.5;
    assert FromSteps(2) * STEPS_PER_UNIT == 2.0;
  }

  lemma SmallFeedIsGood()
    ensures GoodFeed(SmallFeed()) && SmallFeed().reports[0].slug == "m" && Lost(SmallFeed(), 0, Input)
  {
    BetweenStepsIsLost();
    ColonFreeDoNotCollide("s", "s");
    assert SmallFeed().reports[0] == ScrapedModel("m", BETWEEN_STEPS, BETWEEN_STEPS, "s", "");
  }

  /** The settled state is one of those the theorems below are about. */
  lemma SmallStateIsSettled()
    requires GoodFeed(SmallFeed())
    ensures Over(SmallFeed(), SmallState()) && AllSettled(SmallFeed(), SmallState())
  {
    BetweenStepsIsLost();
    var w, s := SmallFeed(), SmallState();
    assert w.reports[0] == ScrapedModel("m", BETWEEN_STEPS, BETWEEN_STEPS, "s", "");
    assert Row(w, w.reports[0]) == RowKey(1, 1);
  }

  /** The feed can be received, and in every state its diff reports a change. */
  lemma SmallFeedNeverRests(s: State)
    requires Over(SmallFeed(), s)
    ensures GoodFeed(SmallFeed()) && DiffsOf(SmallFeed(), s) != []
  {
    SmallFeedIsGood();
    LostIsReported(SmallFeed(), s, 0, Input);
  }

  // ---------------------------------------------------------------- one visit of a settled table

  /** The row repeats the settled price of one of the feed's models. */
  predicate Repeats(w: Feed, row: HistoryRow)
    requires forall i :: 0 <= i < |w.reports| ==> w.reports[i].slug in w.models
  {
    exists j :: 0 <= j < |w.reports| && IsRepeat(w, w.reports[j], row)
  }

  predicate IsRepeat(w: Feed, r: ScrapedModel, row: HistoryRow)
    requires r.slug in w.models
  {
    row.key == Row(w, r) && row.input == ToSteps(r.input) && row.output == ToSteps(r.output)
  }

  /** Since h0, history only gained such rows. */
  predicate OnlyRepeats(w: Feed, h0: seq<HistoryRow>, h: seq<HistoryRow>)
    requires forall i :: 0 <= i < |w.reports| ==> w.reports[i].slug in w.models
  {
    h0 <= h && forall i :: |h0| <= i < |h| ==> Repeats(w, h[i])
  }

  /** A settled column holds the rounded report. */
  lemma SettledColumn(w: Feed, s: State, r: ScrapedModel, f: PriceField)
    requires r.slug in w.models && Settled(w, s, r, f)
    ensures Row(w, r) in s.db.prices && Column(s.db.prices[Row(w, r)], f) == ToSteps(Reported(r, f))
  {
    if CloseTo(w, s, r, f) {
      OnlyRoundingIsClose(Column(s.db.prices[Row(w, r)], f), Reported(r, f));
    }
  }

  lemma AppendLater(h: seq<HistoryRow>, row: HistoryRow, t: int)
    requires HistoryBy(h, t) && t < row.confirmedAt
    ensures Append(h, row) == h + [row] && HistoryBy(h + [row], row.confirmedAt)
  {
  }

  /** The gate on a field of a settled model: it remembers the report and writes nothing, or it appends
      a row that repeats the settled price. A waiting report is not remembered again. */
  lemma SettledVisit(w: Feed, s: State, r: ScrapedModel, f: PriceField, k: GroupKey, d: PriceDiff,
                     sibling: real, t: int, now: int, faults: Faults)
    requires Over(w, s) && GoodReport(w, r) && faults == Faults(false, false, false, false, false)
    requires k == GroupKey(r.slug, f) && d.newValue == Reported(r, f) && SingleKey(k, d) == Pkey(r, f)
    requires CloseTo(w, s, r, OtherField(f)) || sibling == Reported(r, OtherField(f))
    requires Settled(w, s, r, f) && Settled(w, s, r, OtherField(f)) && HistoryBy(s.db.history, t) && t < now
    ensures var h, h' := s.db.history, Single(s, k, Row(w, r), d, sibling, now, faults).db.history;
            && HistoryBy(h', now)
            && (if h' == h then !Primed(s, r, f) && PrimedSince(Single(s, k, Row(w, r), d, sibling, now, faults), r, f, now)
                else |h'| == |h| + 1 && h' == h + [h'[|h|]] && IsRepeat(w, r, h'[|h|]))
  {
    var key := Row(w, r);
    SettledColumn(w, s, r, f);
    SettledColumn(w, s, r, OtherField(f));
    GateStep(s.pending, Pkey(r, f), d.newValue, d.source, true, now);
    var g := SingleGate(s, k, key, d, now, faults);
    if g.verdict != Hold {
      var conf := if g.verdict == FirstSeen then Low else Medium;
      PublishSucceeds(w, s.(pending := g.pending), r, f, conf, d.underlying, sibling, now, faults);
      var p := Single(s, k, key, d, sibling, now, faults).db.prices[key];
      AppendLater(s.db.history, RowWritten(key, p, now, d.underlying), t);
      assert Column(p, f) == ToSteps(Reported(r, f)) && Column(p, OtherField(f)) == ToSteps(Reported(r, OtherField(f)));
    }
  }

  // ---------------------------------------------------------------- a pass over a settled table

  /** What holds while a cycle runs over a settled table. */
  ghost predicate Idle(w: Feed, s: State, index: map<string, Costs>, h0: seq<HistoryRow>, t: int)
    requires GoodFeed(w)
  {
    Over(w, s) && RestClose(w, s, index) && AllSettled(w, s) && OnlyRepeats(w, h0, s.db.history) && HistoryBy(s.db.history, t)
  }

  /** History has grown, or the report waits since then. */
  predicate Awaits(s: State, r: ScrapedModel, g: PriceField, h0: seq<HistoryRow>, since: int) {
    |s.db.history| > |h0| || PrimedSince(s, r, g, since)
  }

  lemma VisitStaysSettled(w: Feed, s: State, index: map<string, Costs>, ids: map<string, int>, env: Env, i: nat, f: PriceField)
    requires GoodFeed(w) && Over(w, s) && Faultless(env) && IdOf(ids, w.source) == w.id
    requires i < |w.reports| && Moved(index, w.reports[i], f) && RestClose(w, s, index) && AllSettled(w, s)
    ensures var s' := Step1(s, DiffAll(index, w.reports), ids, env, GroupKey(w.reports[i].slug, f));
            Over(w, s') && RestClose(w, s', index) && AllSettled(w, s') && KeepsOthers(w, s, s', env, i, f)
            && Touches(w, s, s', w.reports[i], f)
  {
    var s' := Step1(s, DiffAll(index, w.reports), ids, env, GroupKey(w.reports[i].slug, f));
    VisitEffect(w, s, index, ids, env, i, f);
    VisitKeepsOthers(w, s, s', env, i, f);
    PassRest(w, s, s', index, env, i, f);
    forall j, g | 0 <= j < |w.reports|
      ensures Settled(w, s', w.reports[j], g)
    {
      assert Settled(w, s, w.reports[j], g);
    }
  }

  lemma VisitHistory(w: Feed, s: State, index: map<string, Costs>, ids: map<string, int>, env: Env, i: nat, f: PriceField, t: int)
    requires GoodFeed(w) && Over(w, s) && Faultless(env) && IdOf(ids, w.source) == w.id
    requires i < |w.reports| && Moved(index, w.reports[i], f) && RestClose(w, s, index) && AllSettled(w, s)
    requires HistoryBy(s.db.history, t) && t < env.at(GroupKey(w.reports[i].slug, f))
    ensures var r, k := w.reports[i], GroupKey(w.reports[i].slug, f);
            var s' := Step1(s, DiffAll(index, w.reports), ids, env, k);
            var h, h' := s.db.history, s'.db.history;
            && HistoryBy(h', env.at(k))
            && (if h' == h then !Primed(s, r, f) && PrimedSince(s', r, f, env.at(k))
                else |h'| == |h| + 1 && h' == h + [h'[|h|]] && IsRepeat(w, r, h'[|h|]))
  {
    var r := w.reports[i];
    var k, d := GroupKey(r.slug, f), DiffOne(index, r, f).value;
    var sibling := if Moved(index, r, OtherField(f)) then Reported(r, OtherField(f)) else 0.0;
    VisitIsSingle(w, s, index, ids, env, i, f);
    SettledVisit(w, s, r, f, k, d, sibling, t, env.at(k), env.faults(k));
  }

  lemma RepeatsOneMore(w: Feed, h0: seq<HistoryRow>, h: seq<HistoryRow>, row: HistoryRow, i: nat)
    requires GoodFeed(w) && OnlyRepeats(w, h0, h) && i < |w.reports| && IsRepeat(w, w.reports[i], row)
    ensures OnlyRepeats(w, h0, h + [row])
  {
  }

  lemma IdleStep(w: Feed, s: State, index: map<string, Costs>, ids: map<string, int>, env: Env, k: GroupKey,
                 h0: seq<HistoryRow>, t: int, j: nat, g: PriceField, since: int)
    requires GoodFeed(w) && Faultless(env) && IdOf(ids, w.source) == w.id && k in Keys(DiffAll(index, w.reports))
    requires Idle(w, s, index, h0, t) && t < env.at(k) && j < |w.reports| && since <= env.at(k)
    ensures var s', r := Step1(s, DiffAll(index, w.reports), ids, env, k), w.reports[j];
            && Idle(w, s', index, h0, env.at(k)) && |s.db.history| <= |s'.db.history|
            && (Awaits(s, r, g, h0, since) ==> Awaits(s', r, g, h0, since))
            && (k == GroupKey(r.slug, g) ==> Awaits(s', r, g, h0, since))
            && (k == GroupKey(r.slug, g) && Awaits(s, r, g, h0, since) ==> |s'.db.history| > |h0|)
  {
    var i := KeyHasReport(w, index, k);
    assert k == GroupKey(w.reports[i].slug, k.field);
    var s' := Step1(s, DiffAll(index, w.reports), ids, env, k);
    VisitStaysSettled(w, s, index, ids, env, i, k.field);
    VisitHistory(w, s, index, ids, env, i, k.field, t);
    var h, h' := s.db.history, s'.db.history;
    if h' != h {
      RepeatsOneMore(w, h0, h, h'[|h|], i);
    }
    if k == GroupKey(w.reports[j].slug, g) {
      assert i == j && g == k.field;
    } else {
      OthersKept(w, s, s', i, k.field, j, g, since);
    }
  }

  /** What a pass from s0 has done for field g of report j, once the groups in done were visited. */
  ghost predicate PassedOver(w: Feed, s0: State, s: State, index: map<string, Costs>, done: seq<GroupKey>,
                             h0: seq<HistoryRow>, t: int, j: nat, g: PriceField, since: int)
    requires GoodFeed(w) && j < |w.reports|
  {
    var r := w.reports[j];
    && Idle(w, s, index, h0, t)
    && (Awaits(s0, r, g, h0, since) ==> Awaits(s, r, g, h0, since))
    && (GroupKey(r.slug, g) in done ==>
          Awaits(s, r, g, h0, since) && (Awaits(s0, r, g, h0, since) ==> |s.db.history| > |h0|))
  }

  lemma PassOneMore(w: Feed, s0: State, s: State, index: map<string, Costs>, ids: map<string, int>, env: Env,
                    done: seq<GroupKey>, k: GroupKey, h0: seq<HistoryRow>, t: int, j: nat, g: PriceField, since: int)
    requires GoodFeed(w) && Faultless(env) && IdOf(ids, w.source) == w.id && k in Keys(DiffAll(index, w.reports))
    requires j < |w.reports| && PassedOver(w, s0, s, index, done, h0, t, j, g, since) && t < env.at(k) && since <= env.at(k)
    ensures PassedOver(w, s0, Step1(s, DiffAll(index, w.reports), ids, env, k), index, done + [k], h0, env.at(k), j, g, since)
  {
    IdleStep(w, s, index, ids, env, k, h0, t, j, g, since);
  }

  lemma {:induction false} IdlePass(w: Feed, s: State, index: map<string, Costs>, ids: map<string, int>, env: Env,
                                    order: seq<GroupKey>, h0: seq<HistoryRow>, t: int, j: nat, g: PriceField, since: int)
    requires GoodFeed(w) && Faultless(env) && IdOf(ids, w.source) == w.id && j < |w.reports|
    requires (forall k :: k in order ==> k in Keys(DiffAll(index, w.reports))) && Rising(order, env, t)
    requires (forall k :: k in order ==> since <= env.at(k)) && Idle(w, s, index, h0, t)
    ensures PassedOver(w, s, Steps(s, DiffAll(index, w.reports), ids, env, order), index, order, h0,
                       LastReading(order, env, t), j, g, since)
  {
    if order != [] {
      var n := |order| - 1;
      RisingSplit(order, env, t);
      assert order == order[..n] + [order[n]];
      IdlePass(w, s, index, ids, env, order[..n], h0, t, j, g, since);
      PassOneMore(w, s, Steps(s, DiffAll(index, w.reports), ids, env, order[..n]), index, ids, env, order[..n], order[n],
                  h0, LastReading(order[..n], env, t), j, g, since);
    }
  }

  // ---------------------------------------------------------------- scans of a settled table

  /** A settled table whose history since h0 only repeats. */
  ghost predicate Resting(w: Feed, s: State, h0: seq<HistoryRow>, t: int)
    requires GoodFeed(w)
  {
    Over(w, s) && AllSettled(w, s) && OnlyRepeats(w, h0, s.db.history) && HistoryBy(s.db.history, t)
  }

  /** One cycle: the lost field's report waits, and if it waited before, history grows. */
  lemma IdleCycle(w: Feed, s: State, order: seq<GroupKey>, env: Env, h0: seq<HistoryRow>, t: int, j: nat, g: PriceField, since: int)
    requires GoodFeed(w) && Faultless(env) && IsOrder(order, Keys(DiffsOf(w, s))) && Rising(order, env, t)
    requires Resting(w, s, h0, t) && Lost(w, j, g) && forall k :: k in order ==> since <= env.at(k)
    ensures var s', r := IdealCycle(s, Cycle(DiffsOf(w, s), order, env)), w.reports[j];
            && Resting(w, s', h0, LastReading(order, env, t)) && Awaits(s', r, g, h0, since)
            && (Awaits(s.(pending := Live(s.pending, env.sweepAt)), r, g, h0, since) ==> |s'.db.history| > |h0|)
  {
    var diffs, index := DiffsOf(w, s), TableIndex(s.db, w.id);
    var s0, ids := s.(pending := Live(s.pending, env.sweepAt)), SourceIds(s.db, diffs, {});
    LostIsReported(w, s, j, g);
    ScanIsValid(w, s, diffs);
    SweptStart(w, s, env);
    SettledByColumns(w, s, s0);
    IdlePass(w, s0, index, ids, env, order, h0, t, j, g, since);
  }

  lemma SettledByColumns(w: Feed, s: State, s': State)
    requires GoodFeed(w) && s'.db.prices == s.db.prices && AllSettled(w, s)
    ensures AllSettled(w, s')
  {
    forall j, g | 0 <= j < |w.reports|
      ensures Settled(w, s', w.reports[j], g)
    {
      assert Settled(w, s, w.reports[j], g);
    }
  }

  lemma IdleScan(w: Feed, s: State, order: seq<GroupKey>, env: Env, h0: seq<HistoryRow>, t: int, j: nat, g: PriceField, since: int)
    requires GoodFeed(w) && Faultless(env) && IsOrder(order, Keys(DiffsOf(w, s))) && Rising(order, env, t)
    requires Resting(w, s, h0, t) && Lost(w, j, g) && forall k :: k in order ==> since <= env.at(k)
    ensures var s', r := Scan(w, s, order, env), w.reports[j];
            && Resting(w, s', h0, LastReading(order, env, t)) && Awaits(s', r, g, h0, since)
            && (Awaits(s.(pending := Live(s.pending, env.sweepAt)), r, g, h0, since) ==> |s'.db.history| > |h0|)
  {
    IdleCycle(w, s, order, env, h0, t, j, g, since);
    var m := IdealCycle(s, Cycle(DiffsOf(w, s), order, env));
    VerifyKeepsColumns(w, m, env.verifyAt);
    forall i, f | 0 <= i < |w.reports|
      ensures Settled(w, Scan(w, s, order, env), w.reports[i], f)
    {
      assert Settled(w, m, w.reports[i], f);
    }
  }

  /** What waits since then survives the next sweep. */
  lemma AwaitsSweep(s: State, r: ScrapedModel, g: PriceField, h: seq<HistoryRow>, since: int, earlier: int, sweepAt: int)
    requires Awaits(s, r, g, h, since) && sweepAt - PENDING_TTL <= since && earlier <= since
    ensures Awaits(s.(pending := Live(s.pending, sweepAt)), r, g, h, earlier)
  {
  }

  /** Two scans of a settled table add at least one row to history, and only rows that repeat. */
  lemma TwoScansRepublish(w: Feed, s: State, order1: seq<GroupKey>, env1: Env, order2: seq<GroupKey>, env2: Env,
                          t: int, j: nat, g: PriceField)
    requires GoodFeed(w) && Faultless(env1) && Faultless(env2) && Resting(w, s, s.db.history, t) && Lost(w, j, g)
    requires IsOrder(order1, Keys(DiffsOf(w, s))) && IsOrder(order2, Keys(DiffsOf(w, Scan(w, s, order1, env1))))
    requires Rising(order1, env1, t) && Rising(order2, env2, LastReading(order1, env1, t))
    requires forall k :: env2.sweepAt - PENDING_TTL <= env1.at(k)
    ensures var s2 := Scan(w, Scan(w, s, order1, env1), order2, env2);
            && Resting(w, s2, s.db.history, LastReading(order2, env2, LastReading(order1, env1, t)))
            && |s2.db.history| > |s.db.history|
  {
    var h, r, since := s.db.history, w.reports[j], env2.sweepAt - PENDING_TTL;
    IdleScan(w, s, order1, env1, h, t, j, g, since);
    var s1, t1 := Scan(w, s, order1, env1), LastReading(order1, env1, t);
    var earlier := if t1 < since then t1 else since;
    AwaitsSweep(s1, r, g, h, since, earlier, env2.sweepAt);
    IdleScan(w, s1, order2, env2, h, t1, j, g, earlier);
  }

  // ---------------------------------------------------------------- for ever

  /** The last clock reading of a series of scans. */
  function EndOfScans(t: int, orders: seq<seq<GroupKey>>, envs: seq<Env>): int
    requires |orders| == |envs|
  {
    if orders == [] then t
    else
      var n := |orders| - 1;
      LastReading(orders[n], envs[n], EndOfScans(t, orders[..n], envs[..n]))
  }

  ghost predicate SoonAfter(before: Env, env: Env) {
    forall k :: env.sweepAt - PENDING_TTL <= before.at(k)
  }

  /** Scan i of the series can take place: faultless, in some order of its groups, later than all before
      it, and less than 72 hours after its predecessor. */
  ghost predicate ScanFits(w: Feed, s: State, t: int, orders: seq<seq<GroupKey>>, envs: seq<Env>, i: nat)
    requires |orders| == |envs| && i < |orders|
  {
    && Faultless(envs[i]) && IsOrder(orders[i], Keys(DiffsOf(w, Scans(w, s, orders[..i], envs[..i]))))
    && Rising(orders[i], envs[i], EndOfScans(t, orders[..i], envs[..i]))
    && (i > 0 ==> SoonAfter(envs[i - 1], envs[i]))
  }

  lemma ScansOneMore(w: Feed, s: State, t: int, orders: seq<seq<GroupKey>>, envs: seq<Env>, n: nat)
    requires |orders| == |envs| && n < |orders|
    ensures Scans(w, s, orders[..n + 1], envs[..n + 1]) == Scan(w, Scans(w, s, orders[..n], envs[..n]), orders[n], envs[n])
    ensures EndOfScans(t, orders[..n + 1], envs[..n + 1]) == LastReading(orders[n], envs[n], EndOfScans(t, orders[..n], envs[..n]))
  {
    assert orders[..n + 1][..n] == orders[..n] && envs[..n + 1][..n] == envs[..n];
  }

  lemma RepeatsChain(w: Feed, h0: seq<HistoryRow>, h: seq<HistoryRow>, h': seq<HistoryRow>)
    requires GoodFeed(w) && OnlyRepeats(w, h0, h) && OnlyRepeats(w, h, h')
    ensures OnlyRepeats(w, h0, h')
  {
  }

  /** While a feed reports a price that its column cannot hold, a settled table never comes to rest: no
      scan changes a price, and every two scans append at least one more row that repeats a settled one. */
  lemma {:induction false} HistoryNeverStops(w: Feed, s: State, t: int, orders: seq<seq<GroupKey>>, envs: seq<Env>,
                                             j: nat, g: PriceField, n: nat)
    requires GoodFeed(w) && Resting(w, s, s.db.history, t) && Lost(w, j, g)
    requires |orders| == |envs| && 2 * n <= |orders|
    requires forall i :: 0 <= i < |orders| ==> ScanFits(w, s, t, orders, envs, i)
    ensures var s' := Scans(w, s, orders[..2 * n], envs[..2 * n]);
            && Resting(w, s', s.db.history, EndOfScans(t, orders[..2 * n], envs[..2 * n]))
            && |s'.db.history| >= |s.db.history| + n
  {
    if n == 0 {
      assert orders[..0] == [] && envs[..0] == [];
    } else {
      var m := 2 * (n - 1);
      HistoryNeverStops(w, s, t, orders, envs, j, g, n - 1);
      NextTwoScans(w, s, t, orders, envs, j, g, m);
    }
  }

  lemma NextTwoScans(w: Feed, s: State, t: int, orders: seq<seq<GroupKey>>, envs: seq<Env>, j: nat, g: PriceField, m: nat)
    requires GoodFeed(w) && Lost(w, j, g) && |orders| == |envs| && m + 2 <= |orders|
    requires forall i :: 0 <= i < |orders| ==> ScanFits(w, s, t, orders, envs, i)
    requires Resting(w, Scans(w, s, orders[..m], envs[..m]), s.db.history, EndOfScans(t, orders[..m], envs[..m]))
    ensures var a, b := Scans(w, s, orders[..m], envs[..m]), Scans(w, s, orders[..m + 2], envs[..m + 2]);
            && Resting(w, b, s.db.history, EndOfScans(t, orders[..m + 2], envs[..m + 2]))
            && |b.db.history| > |a.db.history|
  {
    var a, start := Scans(w, s, orders[..m], envs[..m]), EndOfScans(t, orders[..m], envs[..m]);
    ScansOneMore(w, s, t, orders, envs, m);
    ScansOneMore(w, s, t, orders, envs, m + 1);
    assert ScanFits(w, s, t, orders, envs, m) && ScanFits(w, s, t, orders, envs, m + 1);
    assert SoonAfter(envs[m], envs[m + 1]);
    TwoScansRepublish(w, a, orders[m], envs[m], orders[m + 1], envs[m + 1], start, j, g);
    RepeatsChain(w, s.db.history, a.db.history, Scans(w, s, orders[..m + 2], envs[..m + 2]).db.history);
  }
}
