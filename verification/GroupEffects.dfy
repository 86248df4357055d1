/** What visiting one group does to the tables and the log, told in terms of the group's reports alone:
    their slugs, fields, sources, providers and values (internal/reconciler/reconciler.go). */
module GroupEffects {
  import Folds
  import opened Prices
  import opened DiffEngine
  import opened PriceStore
  import opened HistoryTruth
  import opened MultiSource
  import opened PendingMirror
  import opened Reconciler

  /** The report belongs to the group. */
  predicate InGroup(d: PriceDiff, k: GroupKey) {
    d.slug == k.slug && d.field == k.field
  }

  /** Who is behind a report: its underlying provider if it names one, else its source. */
  function Behind(d: PriceDiff): string {
    if |d.underlying| > 0 then d.underlying else d.source
  }

  /** The id a source resolved to in this cycle. */
  predicate HasId(ids: map<string, int>, source: string, id: int) {
    (source in ids && ids[source] == id) || (source !in ids && id == -1)
  }

  /** What a logged publish says of the visited field. */
  function Price(s: Step, f: PriceField): real
    requires s.PublishStep?
  {
    match f
    case Input => s.input
    case Output => s.output
  }

  /** The steps a visit logged. */
  function Logged(s: State, s': State): seq<Step>
    requires s.log <= s'.log
  {
    s'.log[|s.log|..]
  }

  /** No report of the group names an earlier source. */
  predicate IsFirstSource(valid: seq<PriceDiff>, k: GroupKey, d: PriceDiff) {
    d in valid && InGroup(d, k) && forall e :: e in valid && InGroup(e, k) ==> StrLe(d.source, e.source)
  }

  // ---------------------------------------------------------------- the group

  lemma {:induction false} GroupHolds(valid: seq<PriceDiff>, k: GroupKey, d: PriceDiff)
    ensures multiset(GroupOf(valid, k))[d] == if InGroup(d, k) then multiset(valid)[d] else 0
  {
    if valid != [] {
      var n := |valid| - 1;
      GroupHolds(valid[..n], k, d);
      assert valid == valid[..n] + [valid[n]];
    }
  }

  lemma SortedCounts(valid: seq<PriceDiff>, k: GroupKey, d: PriceDiff)
    ensures multiset(Sorted(valid, k))[d] == if InGroup(d, k) then multiset(valid)[d] else 0
  {
    GroupHolds(valid, k, d);
    SortSorts(GroupOf(valid, k));
  }

  lemma SortedHolds(valid: seq<PriceDiff>, k: GroupKey, d: PriceDiff)
    ensures d in Sorted(valid, k) <==> d in valid && InGroup(d, k)
  {
    SortedCounts(valid, k, d);
    assert d in Sorted(valid, k) <==> d in multiset(Sorted(valid, k));
    assert d in valid <==> d in multiset(valid);
  }

  lemma FirstOfSorted(valid: seq<PriceDiff>, k: GroupKey)
    requires Sorted(valid, k) != []
    ensures IsFirstSource(valid, k, Sorted(valid, k)[0])
  {
    var g := Sorted(valid, k);
    SortSorts(GroupOf(valid, k));
    SortedHolds(valid, k, g[0]);
    forall e | e in valid && InGroup(e, k)
      ensures StrLe(g[0].source, e.source)
    {
      SortedHolds(valid, k, e);
      var i :| 0 <= i < |g| && g[i] == e;
      StrLeTotal(e.source, e.source);
    }
  }

  lemma {:induction false} TwiceIsTwoPlaces(s: seq<PriceDiff>, x: PriceDiff) returns (i: nat, j: nat)
    requires multiset(s)[x] >= 2
    ensures i < j < |s| && s[i] == x && s[j] == x
  {
    var n := |s| - 1;
    assert s == s[..n] + [s[n]];
    if s[n] == x {
      assert x in multiset(s[..n]);
      i :| 0 <= i < n && s[..n][i] == x;
      j := n;
    } else {
      i, j := TwiceIsTwoPlaces(s[..n], x);
    }
  }

  /** Two places of the sorted group are two places of the cycle's reports. */
  lemma TwoPlaces(valid: seq<PriceDiff>, k: GroupKey, p: nat, q: nat) returns (i: nat, j: nat)
    requires p < |Sorted(valid, k)| && q < |Sorted(valid, k)| && p != q
    ensures i < |valid| && j < |valid| && i != j && valid[i] == Sorted(valid, k)[p] && valid[j] == Sorted(valid, k)[q]
    ensures InGroup(valid[i], k) && InGroup(valid[j], k)
  {
    var g := Sorted(valid, k);
    SortedHolds(valid, k, g[p]);
    SortedHolds(valid, k, g[q]);
    if g[p] == g[q] {
      TwiceCountsTwo(g, if p < q then p else q, if p < q then q else p);
      SortedCounts(valid, k, g[p]);
      i, j := TwiceIsTwoPlaces(valid, g[p]);
    } else {
      i :| 0 <= i < |valid| && valid[i] == g[p];
      j :| 0 <= j < |valid| && valid[j] == g[q];
    }
  }

  // ---------------------------------------------------------------- gate or consensus

  lemma OneNameIsSingle(valid: seq<PriceDiff>, k: GroupKey, name: string)
    requires forall d :: d in valid && InGroup(d, k) ==> Behind(d) == name
    ensures IsSingle(Sorted(valid, k))
  {
    var g := Sorted(valid, k);
    forall p | p in Providers(g)
      ensures p in {name}
    {
      var d :| d in g && EffectiveProvider(d) == p;
      SortedHolds(valid, k, d);
    }
    Folds.SubsetSize(Providers(g), {name});
  }

  lemma TwoNamesAreNot(valid: seq<PriceDiff>, k: GroupKey, d: PriceDiff, e: PriceDiff)
    requires d in valid && e in valid && InGroup(d, k) && InGroup(e, k) && Behind(d) != Behind(e)
    ensures |Sorted(valid, k)| >= 2 && !IsSingle(Sorted(valid, k))
  {
    var g := Sorted(valid, k);
    SortedHolds(valid, k, d);
    SortedHolds(valid, k, e);
    var p, q := EffectiveProvider(d), EffectiveProvider(e);
    assert {p, q} <= Providers(g);
    Folds.SubsetSize({p, q}, Providers(g));
    var i :| 0 <= i < |g| && g[i] == d;
    var j :| 0 <= j < |g| && g[j] == e;
  }

  // ---------------------------------------------------------------- one publish

  /** A publish logs at most one step, which carries the value for the visited field, and touches the
      row of that step only. */
  lemma PublishLogs(s: State, key: RowKey, f: PriceField, value: real, conf: Confidence, under: string,
                    sibling: real, now: int, faults: Faults)
    ensures var s' := PublishTo(s, key, f, value, conf, under, sibling, now, faults);
            && s.log <= s'.log && s'.pending == s.pending && s'.db.models == s.db.models
            && (Logged(s, s') == [] ==> s'.db == s.db)
            && (Logged(s, s') != [] ==>
                  && |Logged(s, s')| == 1 && s'.log[|s.log|].PublishStep?
                  && s'.log[|s.log|].key == key && Price(s'.log[|s.log|], f) == value
                  && s'.log[|s.log|].confidence == conf && s'.log[|s.log|].underlying == under && s'.log[|s.log|].now == now
                  && OnlyRow(s.db.prices, s'.db.prices, key))
  {
  }

  // ---------------------------------------------------------------- one provider

  /** When every report of a group comes from one provider, a visit flags nothing and publishes nothing at
      High; what it publishes is the report of the first source, to that source's row; and rows that
      exist, with no waiting report close to one of the group, keep what they hold. */
  lemma OneProviderIsGated(s: State, valid: seq<PriceDiff>, ids: map<string, int>, env: Env, k: GroupKey, name: string)
    requires forall d :: d in valid && InGroup(d, k) ==> Behind(d) == name
    ensures var s' := Step1(s, valid, ids, env, k);
            && s.log <= s'.log && |Logged(s, s')| <= 1
            && (forall st :: st in Logged(s, s') ==>
                  && st.PublishStep? && st.confidence != High
                  && k.slug in s.db.models && st.key.model == s.db.models[k.slug]
                  && (exists d :: IsFirstSource(valid, k, d) && IsPublished(d, ids, k, st))
                  && OnlyRow(s.db.prices, s'.db.prices, st.key))
            && (Logged(s, s') == [] ==> s'.db == s.db)
            && ((forall d :: d in valid && InGroup(d, k) ==> Guarded(s, ids, k, d, name)) ==> s'.db == s.db)
  {
    OneNameIsSingle(valid, k, name);
    var g, f, now := Sorted(valid, k), env.faults(k), env.at(k);
    if !Skipped(s, valid, k, f) {
      FirstOfSorted(valid, k);
      var d := g[0];
      var key := RowKey(s.db.models[k.slug], IdOf(ids, d.source));
      SingleLogs(s, k, key, d, Sibling(valid, k), now, f);
      assert Behind(d) == name;
      if Guarded(s, ids, k, d, name) {
        GuardedHolds(s, ids, k, d, name, now, f);
      }
      var s' := Step1(s, valid, ids, env, k);
      forall st | st in Logged(s, s')
        ensures exists d :: IsFirstSource(valid, k, d) && IsPublished(d, ids, k, st)
      {
        assert IsFirstSource(valid, k, d) && IsPublished(d, ids, k, st);
      }
    }
  }

  /** The logged publish is that of this report: its source's row, its value and its provider name. */
  predicate IsPublished(d: PriceDiff, ids: map<string, int>, k: GroupKey, st: Step) {
    st.PublishStep? && HasId(ids, d.source, st.key.source) && Price(st, k.field) == d.newValue && st.underlying == d.underlying
  }

  /** The report's row exists, and no waiting report of its model, field and provider is close to it. */
  ghost predicate Guarded(s: State, ids: map<string, int>, k: GroupKey, d: PriceDiff, name: string) {
    && (k.slug in s.db.models ==> exists id :: HasId(ids, d.source, id) && RowKey(s.db.models[k.slug], id) in s.db.prices)
    && var key := PendingKey(k.slug, k.field, name);
       key in s.pending ==> Abs(s.pending[key].value - d.newValue) >= 0.000000000001
  }

  lemma SingleLogs(s: State, k: GroupKey, key: RowKey, d: PriceDiff, sibling: real, now: int, f: Faults)
    ensures var s' := Single(s, k, key, d, sibling, now, f);
            && s.log <= s'.log && |Logged(s, s')| <= 1 && (Logged(s, s') == [] ==> s'.db == s.db)
            && (forall st :: st in Logged(s, s') ==>
                  && st.PublishStep? && st.confidence != High && st.key == key
                  && Price(st, k.field) == d.newValue && st.underlying == d.underlying && OnlyRow(s.db.prices, s'.db.prices, key))
  {
    var g := SingleGate(s, k, key, d, now, f);
    if g.verdict != Hold {
      PublishLogs(s.(pending := g.pending), key, k.field, d.newValue, if g.verdict == FirstSeen then Low else Medium,
                  d.underlying, sibling, now, f);
    }
  }

  lemma GuardedHolds(s: State, ids: map<string, int>, k: GroupKey, d: PriceDiff, name: string, now: int, f: Faults)
    requires Guarded(s, ids, k, d, name) && Behind(d) == name && k.slug in s.db.models
    ensures SingleGate(s, k, RowKey(s.db.models[k.slug], IdOf(ids, d.source)), d, now, f).verdict == Hold
  {
  }

  // ---------------------------------------------------------------- two providers

  /** Two different reports of the group, the first of this source and value, agree within 1e-12. */
  predicate AgreedBy(valid: seq<PriceDiff>, ids: map<string, int>, k: GroupKey, source: int, price: real) {
    exists i, j :: 0 <= i < |valid| && 0 <= j < |valid| && i != j && Agree(valid[i], valid[j], ids, k, source, price)
  }

  predicate Agree(d: PriceDiff, e: PriceDiff, ids: map<string, int>, k: GroupKey, source: int, price: real) {
    && InGroup(d, k) && InGroup(e, k) && HasId(ids, d.source, source) && d.newValue == price
    && -0.000000000001 <= e.newValue - price <= 0.000000000001
  }

  /** The price is near every report of the group: within five per cent of the larger, or both are
      below 1e-12. */
  predicate NearAll(valid: seq<PriceDiff>, k: GroupKey, price: real) {
    forall e :: e in valid && InGroup(e, k) ==> Near(price, e.newValue)
  }

  predicate Near(x: real, y: real) {
    var hi := if x < y then y else x;
    hi < 0.000000000001 || -0.05 * hi <= x - y <= 0.05 * hi
  }

  /** What a logged publish of a consensus says: the value of a report goes to the row of its own source. */
  ghost predicate ConsensusPublish(valid: seq<PriceDiff>, ids: map<string, int>, k: GroupKey, st: Step) {
    && st.PublishStep? && st.confidence != Low
    && (exists d :: d in valid && InGroup(d, k) && HasId(ids, d.source, st.key.source) && d.newValue == Price(st, k.field))
    && (exists d :: IsFirstSource(valid, k, d) && st.underlying == d.underlying)
    && (st.confidence == High ==> AgreedBy(valid, ids, k, st.key.source, Price(st, k.field)))
    && (st.confidence == Medium ==>
          && NearAll(valid, k, Price(st, k.field))
          && exists d :: IsFirstSource(valid, k, d) && HasId(ids, d.source, st.key.source) && d.newValue == Price(st, k.field))
  }

  /** The two prices differ by at most this share of the larger. */
  predicate Within(x: real, y: real, share: real) {
    var hi := if x < y then y else x;
    hi < 0.000000000001 || -(share * hi) <= x - y <= share * hi
  }

  /** No two reports of the group are further apart than this. */
  predicate NoneWider(valid: seq<PriceDiff>, k: GroupKey, share: real) {
    forall p, q :: p in valid && q in valid && InGroup(p, k) && InGroup(q, k) ==> Within(p.newValue, q.newValue, share)
  }

  /** What a logged flag says: each side is the source and the value of one report, they are not near, and no
      two reports are further apart. */
  ghost predicate ConsensusFlag(valid: seq<PriceDiff>, ids: map<string, int>, k: GroupKey, st: Step) {
    && st.FlagStep? && st.field == k.field && NoneWider(valid, k, st.delta)
    && exists d, e :: d in valid && e in valid && InGroup(d, k) && InGroup(e, k) && SidesOf(d, e, ids, st)
  }

  predicate SidesOf(d: PriceDiff, e: PriceDiff, ids: map<string, int>, st: Step)
    requires st.FlagStep?
  {
    && HasId(ids, d.source, st.a) && st.valueA == d.newValue
    && HasId(ids, e.source, st.b) && st.valueB == e.newValue
    && StrLe(d.source, e.source) && !Near(d.newValue, e.newValue)
    && var hi := if d.newValue < e.newValue then e.newValue else d.newValue;
       st.delta > 0.05 && (st.delta * hi == d.newValue - e.newValue || st.delta * hi == e.newValue - d.newValue)
  }

  lemma NearIsWithin(x: real, y: real)
    ensures Near(x, y) <==> WithinThreshold(x, y)
  {
    var hi := if x < y then y else x;
    if hi >= EPSILON {
      assert Abs(x - y) <= 0.05 * hi <==> -0.05 * hi <= x - y <= 0.05 * hi;
    }
  }

  lemma ChoiceIsReport(valid: seq<PriceDiff>, ids: map<string, int>, k: GroupKey)
    requires |Sorted(valid, k)| >= 2 && Decide(ValuesOf(Sorted(valid, k), ids)).publish.Some?
    ensures var c := Decide(ValuesOf(Sorted(valid, k), ids)).publish.value;
            && c.confidence != Low
            && (exists d :: d in valid && InGroup(d, k) && HasId(ids, d.source, c.source) && d.newValue == c.value)
            && (c.confidence == High ==> AgreedBy(valid, ids, k, c.source, c.value))
            && (c.confidence == Medium ==>
                  && NearAll(valid, k, c.value)
                  && exists d :: IsFirstSource(valid, k, d) && HasId(ids, d.source, c.source) && d.newValue == c.value)
  {
    var g := Sorted(valid, k);
    var v := ValuesOf(g, ids);
    var c := Decide(v).publish.value;
    var p := PublishedIsBacked(v);
    SortedHolds(valid, k, g[p]);
    assert HasId(ids, g[p].source, c.source) && g[p].newValue == c.value;
    if c.confidence == High {
      var q :| 0 <= q < |v| && q != p && Close(v[q].value, v[p].value);
      var i, j := TwoPlaces(valid, k, p, q);
      assert Agree(valid[i], valid[j], ids, k, c.source, c.value);
    } else {
      FirstOfSorted(valid, k);
      forall e | e in valid && InGroup(e, k)
        ensures Near(c.value, e.newValue)
      {
        SortedHolds(valid, k, e);
        var i :| 0 <= i < |g| && g[i] == e;
        assert WithinThreshold(v[p].value, v[i].value);
        NearIsWithin(c.value, e.newValue);
      }
    }
  }

  lemma SpreadIs(x: real, y: real)
    ensures var hi, d := if x < y then y else x, Spread(x, y);
            && (hi >= 0.000000000001 ==> d * hi == if x < y then y - x else x - y)
            && (hi < 0.000000000001 ==> d == 0.0) && d >= 0.0
  {
  }

  lemma SpreadWithin(x: real, y: real, share: real)
    requires Spread(x, y) <= share
    ensures Within(x, y, share)
  {
    SpreadIs(x, y);
    var hi := if x < y then y else x;
    if hi >= 0.000000000001 && Spread(x, y) < share {
      ScaleIff(Spread(x, y), share, hi);
    }
  }

  lemma NoneIsWider(valid: seq<PriceDiff>, ids: map<string, int>, k: GroupKey, share: real)
    requires share >= 0.0
    requires var v := ValuesOf(Sorted(valid, k), ids);
             forall p, q :: 0 <= p < q < |v| ==> Spread(v[p].value, v[q].value) <= share
    ensures NoneWider(valid, k, share)
  {
    var g := Sorted(valid, k);
    var v := ValuesOf(g, ids);
    forall p, q | p in valid && q in valid && InGroup(p, k) && InGroup(q, k)
      ensures Within(p.newValue, q.newValue, share)
    {
      SortedHolds(valid, k, p);
      SortedHolds(valid, k, q);
      var i :| 0 <= i < |g| && g[i] == p;
      var j :| 0 <= j < |g| && g[j] == q;
      SpreadMeaning(p.newValue, q.newValue);
      assert i != j ==> Spread(v[i].value, v[j].value) <= share;
      assert i == j ==> Spread(p.newValue, q.newValue) == 0.0;
      SpreadWithin(p.newValue, q.newValue, share);
    }
  }

  lemma SidesAre(d: PriceDiff, e: PriceDiff, ids: map<string, int>, st: Step)
    requires st.FlagStep? && HasId(ids, d.source, st.a) && HasId(ids, e.source, st.b) && StrLe(d.source, e.source)
    requires st.valueA == d.newValue && st.valueB == e.newValue
    requires st.delta == Spread(d.newValue, e.newValue) && st.delta > DISCREPANCY_THRESHOLD
    ensures SidesOf(d, e, ids, st)
  {
    SpreadMeaning(d.newValue, e.newValue);
    NearIsWithin(d.newValue, e.newValue);
    SpreadIs(d.newValue, e.newValue);
  }

  lemma FlagIsReports(valid: seq<PriceDiff>, ids: map<string, int>, k: GroupKey, st: Step)
    requires |Sorted(valid, k)| >= 2 && Decide(ValuesOf(Sorted(valid, k), ids)).flag.Some?
    requires st.FlagStep? && st.field == k.field
    requires var d := Decide(ValuesOf(Sorted(valid, k), ids)).flag.value;
             st.a == d.a.source && st.b == d.b.source && st.valueA == d.a.value && st.valueB == d.b.value && st.delta == d.delta
    ensures ConsensusFlag(valid, ids, k, st)
  {
    var g := Sorted(valid, k);
    var v := ValuesOf(g, ids);
    FlagNamesWorstPair(v);
    SortSorts(GroupOf(valid, k));
    var p, q :| 0 <= p < q < |v| && Decide(v).flag.value == Dispute(v[p], v[q], Spread(v[p].value, v[q].value));
    SortedHolds(valid, k, g[p]);
    SortedHolds(valid, k, g[q]);
    NoneIsWider(valid, ids, k, st.delta);
    SidesAre(g[p], g[q], ids, st);
  }

  lemma FlagLogs(s: State, model: int, f: PriceField, d: Dispute, now: int, faults: Faults)
    ensures var s' := Flagged(s, model, f, d, now, faults);
            && s.log <= s'.log && s'.pending == s.pending && s'.db.models == s.db.models && s'.db.prices == s.db.prices
            && (Logged(s, s') != [] ==>
                  && |Logged(s, s')| == 1 && s'.log[|s.log|].FlagStep?
                  && var st := s'.log[|s.log|];
                     && st.model == model && st.field == f && st.a == d.a.source && st.b == d.b.source
                     && st.valueA == d.a.value && st.valueB == d.b.value && st.delta == d.delta)
  {
  }

  /** What each step of a consensus visit says, and which row the visit touched. */
  ghost predicate VisitSays(valid: seq<PriceDiff>, ids: map<string, int>, k: GroupKey, model: int, a: Db, b: Db, st: Step) {
    if st.PublishStep? then ConsensusPublish(valid, ids, k, st) && st.key.model == model && OnlyRow(a.prices, b.prices, st.key)
    else ConsensusFlag(valid, ids, k, st) && st.model == model
  }

  ghost predicate ConsensusVisit(valid: seq<PriceDiff>, ids: map<string, int>, k: GroupKey, model: int, s: State, s': State) {
    && s'.pending == s.pending && s.log <= s'.log
    && (forall st :: st in Logged(s, s') ==> VisitSays(valid, ids, k, model, s.db, s'.db, st))
    && ((forall st :: st in Logged(s, s') ==> !st.PublishStep?) ==> s'.db.prices == s.db.prices)
  }

  lemma FlagPart(s: State, valid: seq<PriceDiff>, ids: map<string, int>, k: GroupKey, model: int, now: int, f: Faults)
    requires |Sorted(valid, k)| >= 2 && Decide(ValuesOf(Sorted(valid, k), ids)).flag.Some?
    ensures var m := Flagged(s, model, k.field, Decide(ValuesOf(Sorted(valid, k), ids)).flag.value, now, f);
            ConsensusVisit(valid, ids, k, model, s, m) && m.db.prices == s.db.prices
  {
    var d := Decide(ValuesOf(Sorted(valid, k), ids)).flag.value;
    var m := Flagged(s, model, k.field, d, now, f);
    FlagLogs(s, model, k.field, d, now, f);
    if Logged(s, m) != [] {
      FlagIsReports(valid, ids, k, m.log[|s.log|]);
    }
  }

  lemma PublishPart(s: State, valid: seq<PriceDiff>, ids: map<string, int>, k: GroupKey, model: int,
                    sibling: real, now: int, f: Faults)
    requires |Sorted(valid, k)| >= 2 && Decide(ValuesOf(Sorted(valid, k), ids)).publish.Some?
    ensures var g, c := Sorted(valid, k), Decide(ValuesOf(Sorted(valid, k), ids)).publish.value;
            ConsensusVisit(valid, ids, k, model, s, PublishTo(s, RowKey(model, c.source), k.field, c.value, c.confidence,
                                                              g[0].underlying, sibling, now, f))
  {
    var g, c := Sorted(valid, k), Decide(ValuesOf(Sorted(valid, k), ids)).publish.value;
    var s' := PublishTo(s, RowKey(model, c.source), k.field, c.value, c.confidence, g[0].underlying, sibling, now, f);
    PublishLogs(s, RowKey(model, c.source), k.field, c.value, c.confidence, g[0].underlying, sibling, now, f);
    ChoiceIsReport(valid, ids, k);
    FirstOfSorted(valid, k);
    if Logged(s, s') != [] {
      assert ConsensusPublish(valid, ids, k, s'.log[|s.log|]);
    }
  }

  lemma OneThenOther(valid: seq<PriceDiff>, ids: map<string, int>, k: GroupKey, model: int, s: State, m: State, s': State)
    requires ConsensusVisit(valid, ids, k, model, s, m) && m.db.prices == s.db.prices
    requires ConsensusVisit(valid, ids, k, model, m, s') && forall st :: st in Logged(s, m) ==> !st.PublishStep?
    ensures ConsensusVisit(valid, ids, k, model, s, s')
  {
    Folds.Added(s.log, m.log, s'.log);
    forall st | st in Logged(s, s')
      ensures VisitSays(valid, ids, k, model, s.db, s'.db, st)
    {
      assert st in Logged(s, m) || st in Logged(m, s');
    }
    if forall st :: st in Logged(s, s') ==> !st.PublishStep? {
      assert forall st :: st in Logged(m, s') ==> st in Logged(s, s');
    }
  }

  lemma ConsensusLogs(s: State, valid: seq<PriceDiff>, ids: map<string, int>, k: GroupKey, model: int,
                      sibling: real, now: int, f: Faults)
    requires |Sorted(valid, k)| >= 2
    ensures ConsensusVisit(valid, ids, k, model, s, Multi(s, k, model, Sorted(valid, k), ids, sibling, now, f))
  {
    var d := Decide(ValuesOf(Sorted(valid, k), ids));
    var m := s;
    if d.flag.Some? {
      m := Flagged(s, model, k.field, d.flag.value, now, f);
      FlagPart(s, valid, ids, k, model, now, f);
      FlagLogs(s, model, k.field, d.flag.value, now, f);
    }
    if d.publish.Some? {
      PublishPart(m, valid, ids, k, model, sibling, now, f);
      OneThenOther(valid, ids, k, model, s, m, Multi(s, k, model, Sorted(valid, k), ids, sibling, now, f));
    }
  }

  /** When two reports of a group come from different providers, the gate is not consulted: the pending map
      stays. A logged publish is the value of a report, written to the row of that report's own source
      and to no other; at High another report agrees with it. A logged flag names two reports. */
  lemma TwoProvidersReachConsensus(s: State, valid: seq<PriceDiff>, ids: map<string, int>, env: Env, k: GroupKey,
                                   d: PriceDiff, e: PriceDiff)
    requires d in valid && e in valid && InGroup(d, k) && InGroup(e, k) && Behind(d) != Behind(e)
    ensures var s' := Step1(s, valid, ids, env, k);
            && s'.pending == s.pending && s.log <= s'.log
            && (Logged(s, s') == [] || k.slug in s.db.models)
            && (forall st :: st in Logged(s, s') ==> VisitSays(valid, ids, k, s.db.models[k.slug], s.db, s'.db, st))
            && ((forall st :: st in Logged(s, s') ==> !st.PublishStep?) ==> s'.db.prices == s.db.prices)
  {
    TwoNamesAreNot(valid, k, d, e);
    var f := env.faults(k);
    if !Skipped(s, valid, k, f) {
      ConsensusLogs(s, valid, ids, k, s.db.models[k.slug], Sibling(valid, k), env.at(k), f);
    }
  }
}
