/** What a publish does to the column it was not called for, and what it takes to move a stored price
    (internal/reconciler/reconciler.go). */
module CompanionColumn {
  import opened Prices
  import opened DiffEngine
  import opened PriceStore
  import opened MultiSource
  import opened PendingMirror
  import opened Reconciler
  import opened CrashTransparency

  const NO_FAULTS: Faults := Faults(false, false, false, false, false)

  /** When the lookup inside publish fails, a confirmed report of one field overwrites the stored value
      of the other with whatever this cycle scraped for it, seen once, and calls the row Medium. */
  lemma FailedLookupOverwrites(s: State, k: GroupKey, row: RowKey, d: PriceDiff, sibling: real, now: int)
    requires row in s.db.prices && SingleKey(k, d) in s.pending
    requires s.pending[SingleKey(k, d)].count == 1 && Abs(s.pending[SingleKey(k, d)].value - d.newValue) < EPSILON
    requires d.newValue > 0.0 && sibling > 0.0 && Fits(d.newValue) && Fits(sibling)
    ensures var s' := Single(s, k, row, d, sibling, now, NO_FAULTS.(price := true));
            && row in s'.db.prices && s'.db.prices[row].confidence == Medium
            && Column(s'.db.prices[row], k.field) == ToSteps(d.newValue)
            && Column(s'.db.prices[row], OtherField(k.field)) == ToSteps(sibling)
  {
  }

  /** For instance: an output price of 1 becomes 2 on a single report of 2. */
  lemma SingleReportOverwrites(slug: string, source: string) returns (s: State, s': State)
    ensures var k, row := GroupKey(slug, Input), RowKey(1, 1);
            var d := PriceDiff(slug, Input, 1.0, 3.0, 2.0, source, source, true);
            && s' == Single(s, k, row, d, 2.0, 0, NO_FAULTS.(price := true))
            && s.db.prices == map[row := PriceRow(ToSteps(1.0), ToSteps(1.0), High, 0, None, None)]
            && s.pending == map[PendingKey(slug, Input, source) := Entry(3.0, source, 1, 0)]
            && row in s'.db.prices && s'.db.prices[row].output == ToSteps(2.0) != ToSteps(1.0)
            && s'.db.prices[row].confidence == Medium
  {
    var k, row := GroupKey(slug, Input), RowKey(1, 1);
    var d := PriceDiff(slug, Input, 1.0, 3.0, 2.0, source, source, true);
    var prices := map[row := PriceRow(ToSteps(1.0), ToSteps(1.0), High, 0, None, None)];
    s := State(Db(map[], map[], prices, [], []), map[PendingKey(slug, Input, source) := Entry(3.0, source, 1, 0)], []);
    s' := Single(s, k, row, d, 2.0, 0, NO_FAULTS.(price := true));
    assert SingleKey(k, d) == PendingKey(slug, Input, source);
    assert ToSteps(1.0) == 10000000000 && ToSteps(2.0) == 20000000000 && ToSteps(3.0) == 30000000000;
    FailedLookupOverwrites(s, k, row, d, 2.0, 0);
  }

  // ---------------------------------------------------------------- two observations per change

  /** A single-source report that a cycle put through the gate. */
  datatype Sighting = Sighting(slug: string, field: PriceField, provider: string, value: real)

  function KeyOfSighting(o: Sighting): string {
    PendingKey(o.slug, o.field, o.provider)
  }

  predicate ViaGate(valid: seq<PriceDiff>, k: GroupKey) {
    Sorted(valid, k) != [] && IsSingle(Sorted(valid, k))
  }

  function SightingAt(valid: seq<PriceDiff>, k: GroupKey): Sighting
    requires ViaGate(valid, k)
  {
    var d := Sorted(valid, k)[0];
    Sighting(k.slug, k.field, EffectiveProvider(d), d.newValue)
  }

  function SightingsOf(valid: seq<PriceDiff>, order: seq<GroupKey>): set<Sighting> {
    set k | k in order && ViaGate(valid, k) :: SightingAt(valid, k)
  }

  predicate IsSighted(seen: set<Sighting>, key: string, value: real) {
    exists o :: o in seen && KeyOfSighting(o) == key && o.value == value
  }

  /** Every pending entry was put there by a sighting. */
  predicate Explains(seen: set<Sighting>, p: Pending) {
    forall key :: key in p ==> IsSighted(seen, key, p[key].value)
  }

  lemma SightedLater(seen: set<Sighting>, more: set<Sighting>, key: string, value: real)
    requires IsSighted(seen, key, value) && seen <= more
    ensures IsSighted(more, key, value)
  {
    var o :| o in seen && KeyOfSighting(o) == key && o.value == value;
    assert o in more;
  }

  lemma GateExplained(seen: set<Sighting>, p: Pending, o: Sighting, source: string, found: bool, now: int)
    requires Explains(seen, p)
    ensures Explains(seen + {o}, Gate(p, KeyOfSighting(o), o.value, source, found, now).pending)
  {
    var p' := Gate(p, KeyOfSighting(o), o.value, source, found, now).pending;
    forall key | key in p'
      ensures IsSighted(seen + {o}, key, p'[key].value)
    {
      if key in p && p'[key].value == p[key].value {
        SightedLater(seen, seen + {o}, key, p[key].value);
      } else {
        assert key == KeyOfSighting(o) && p'[key].value == o.value && o in seen + {o};
      }
    }
  }

  lemma VisitPending(s: State, valid: seq<PriceDiff>, ids: map<string, int>, env: Env, k: GroupKey)
    ensures var s' := Step1(s, valid, ids, env, k);
            s'.pending ==
            if ViaGate(valid, k) && !Skipped(s, valid, k, env.faults(k)) then
              var d := Sorted(valid, k)[0];
              var row := RowKey(s.db.models[k.slug], IdOf(ids, d.source));
              SingleGate(s, k, row, d, env.at(k), env.faults(k)).pending
            else s.pending
  {
  }

  lemma VisitExplains(seen: set<Sighting>, s: State, valid: seq<PriceDiff>, ids: map<string, int>, env: Env, k: GroupKey)
    requires Explains(seen, s.pending)
    ensures Explains(seen + SightingsOf(valid, [k]), Step1(s, valid, ids, env, k).pending)
  {
    VisitPending(s, valid, ids, env, k);
    if ViaGate(valid, k) {
      var o, d := SightingAt(valid, k), Sorted(valid, k)[0];
      assert SightingsOf(valid, [k]) == {o};
      if Skipped(s, valid, k, env.faults(k)) {
        MoreExplains(seen, seen + {o}, s.pending);
      } else {
        var row := RowKey(s.db.models[k.slug], IdOf(ids, d.source));
        GateExplained(seen, s.pending, o, d.source, env.faults(k).lookup || row in s.db.prices, env.at(k));
      }
    } else {
      MoreExplains(seen, seen + SightingsOf(valid, [k]), s.pending);
    }
  }

  lemma MoreExplains(seen: set<Sighting>, more: set<Sighting>, p: Pending)
    requires Explains(seen, p) && seen <= more
    ensures Explains(more, p)
  {
    forall key | key in p
      ensures IsSighted(more, key, p[key].value)
    {
      SightedLater(seen, more, key, p[key].value);
    }
  }

  lemma SightOneMore(valid: seq<PriceDiff>, order: seq<GroupKey>)
    requires order != []
    ensures var n := |order| - 1;
            SightingsOf(valid, order) == SightingsOf(valid, order[..n]) + SightingsOf(valid, [order[n]])
  {
    assert order == order[..|order| - 1] + [order[|order| - 1]];
  }

  lemma {:induction false} VisitsExplain(seen: set<Sighting>, s: State, valid: seq<PriceDiff>, ids: map<string, int>,
                                         env: Env, order: seq<GroupKey>)
    requires Explains(seen, s.pending)
    ensures Explains(seen + SightingsOf(valid, order), Steps(s, valid, ids, env, order).pending)
  {
    if order != [] {
      var n := |order| - 1;
      VisitsExplain(seen, s, valid, ids, env, order[..n]);
      var before := seen + SightingsOf(valid, order[..n]);
      VisitExplains(before, Steps(s, valid, ids, env, order[..n]), valid, ids, env, order[n]);
      SightOneMore(valid, order);
      assert before + SightingsOf(valid, [order[n]]) == seen + SightingsOf(valid, order);
    } else {
      MoreExplains(seen, seen + SightingsOf(valid, order), s.pending);
    }
  }

  /** What a run has put through the gate so far, on top of what explains its first pending map. */
  function SeenBy(seen: set<Sighting>, s: State, turns: seq<Turn>): set<Sighting> {
    if turns == [] then seen
    else
      var n := |turns| - 1;
      var c := turns[n].cycle;
      SeenBy(seen, s, turns[..n]) + SightingsOf(ValidOf(RunIdeal(s, turns[..n]).db, c), c.order)
  }

  lemma CycleExplains(seen: set<Sighting>, s: State, c: Cycle)
    requires Explains(seen, s.pending)
    ensures Explains(seen + SightingsOf(ValidOf(s.db, c), c.order), IdealCycle(s, c).pending)
  {
    if c.diffs != [] {
      var ids := SourceIds(s.db, c.diffs, c.env.badSources);
      VisitsExplain(seen, s.(pending := Live(s.pending, c.env.sweepAt)), Valid(c.diffs, ids), ids, c.env, c.order);
    } else {
      MoreExplains(seen, seen + SightingsOf(ValidOf(s.db, c), c.order), s.pending);
    }
  }

  lemma {:induction false} RunExplains(seen: set<Sighting>, s: State, turns: seq<Turn>)
    requires Explains(seen, s.pending)
    ensures Explains(SeenBy(seen, s, turns), RunIdeal(s, turns).pending)
  {
    if turns != [] {
      var n := |turns| - 1;
      RunExplains(seen, s, turns[..n]);
      CycleExplains(SeenBy(seen, s, turns[..n]), RunIdeal(s, turns[..n]), turns[n].cycle);
    }
  }

  // ---------------------------------------------------------------- one change

  /** A visit that changed a positive column of a row, with the lookup in publish working. */
  predicate Changes(s: State, s': State, row: RowKey, f: PriceField) {
    && row in s.db.prices && Column(s.db.prices[row], f) > 0
    && (row in s'.db.prices ==> Column(s'.db.prices[row], f) != Column(s.db.prices[row], f))
  }

  /** The gate on an existing row, then its publish: a changed positive column is the one reported, and
      the report confirms an entry that was waiting. */
  lemma SingleChange(s: State, k: GroupKey, key: RowKey, d: PriceDiff, sibling: real, now: int, faults: Faults,
                     row: RowKey, f: PriceField)
    requires !faults.price && Changes(s, Single(s, k, key, d, sibling, now, faults), row, f)
    ensures var s' := Single(s, k, key, d, sibling, now, faults);
            && row == key && f == k.field && row in s'.db.prices
            && Column(s'.db.prices[row], f) == ToSteps(d.newValue)
            && SingleKey(k, d) in s.pending && Abs(s.pending[SingleKey(k, d)].value - d.newValue) < EPSILON
  {
    var g := SingleGate(s, k, key, d, now, faults);
    var held := s.(pending := g.pending);
    if g.verdict != Hold {
      var conf := if g.verdict == FirstSeen then Low else Medium;
      PublishKeepsOthers(held, key, k.field, d.newValue, conf, d.underlying, sibling, now, faults, row);
      if row == key {
        CompanionKeptIff(held, key, k.field, d.newValue, conf, d.underlying, sibling, now, faults);
      }
    }
  }

  lemma PublishKeepsOthers(s: State, key: RowKey, field: PriceField, value: real, conf: Confidence, under: string,
                           sibling: real, now: int, f: Faults, row: RowKey)
    requires row in s.db.prices
    ensures var s' := PublishTo(s, key, field, value, conf, under, sibling, now, f);
            && row in s'.db.prices && (row != key ==> s'.db.prices[row] == s.db.prices[row])
            && (row == key ==> s'.db == s.db || Column(s'.db.prices[row], field) == ToSteps(value))
            && (s'.db != s.db ==> s'.log != s.log)
  {
  }

  lemma VisitChange(seen: set<Sighting>, s: State, valid: seq<PriceDiff>, ids: map<string, int>, env: Env, k: GroupKey,
                    row: RowKey, f: PriceField)
    requires Explains(seen, s.pending) && ViaGate(valid, k) && !env.faults(k).price
    requires Changes(s, Step1(s, valid, ids, env, k), row, f)
    ensures var s', d := Step1(s, valid, ids, env, k), Sorted(valid, k)[0];
            && f == k.field && k.slug in s.db.models && row == RowKey(s.db.models[k.slug], IdOf(ids, d.source))
            && row in s'.db.prices && Column(s'.db.prices[row], f) == ToSteps(d.newValue)
            && exists o :: o in seen && KeyOfSighting(o) == SingleKey(k, d) && Abs(o.value - d.newValue) < EPSILON
  {
    var d := Sorted(valid, k)[0];
    var key := RowKey(s.db.models[k.slug], IdOf(ids, d.source));
    SingleChange(s, k, key, d, Sibling(valid, k), env.at(k), env.faults(k), row, f);
    var o :| o in seen && KeyOfSighting(o) == SingleKey(k, d) && o.value == s.pending[SingleKey(k, d)].value;
  }

  // ---------------------------------------------------------------- over runs

  /** The state of a process in one turn after its first m visits. */
  function Midway(w: World, t: Turn, m: nat): World
    requires m <= |t.cycle.order| && t.cycle.diffs != []
  {
    var w0, c := if t.restart then Restarted(w) else w, t.cycle;
    var ids := SourceIds(w0.st.db, c.diffs, c.env.badSources);
    StepsWorld(Swept(Loaded(w0, c.env.loadAt), c.env.sweepAt), Valid(c.diffs, ids), ids, c.env, c.order[..m])
  }

  function MidIdeal(s: State, c: Cycle, m: nat): State
    requires m <= |c.order|
  {
    var ids := SourceIds(s.db, c.diffs, c.env.badSources);
    Steps(s.(pending := Live(s.pending, c.env.sweepAt)), Valid(c.diffs, ids), ids, c.env, c.order[..m])
  }

  lemma MidwayIsIdeal(w: World, s: State, start: int, t: Turn, m: nat)
    requires Coupled(w, s, start) && Clocked(t.cycle, start) && m <= |t.cycle.order| && t.cycle.diffs != []
    ensures Midway(w, t, m).st == MidIdeal(s, t.cycle, m)
  {
    var w0, c := if t.restart then Restarted(w) else w, t.cycle;
    var ids := SourceIds(s.db, c.diffs, c.env.badSources);
    HydrateAndSweep(w0, s, start, c.env.loadAt, c.env.sweepAt);
    StepsStayInStep(Swept(Loaded(w0, c.env.loadAt), c.env.sweepAt), Valid(c.diffs, ids), ids, c.env, c.order[..m]);
  }

  lemma IdealChange(seen: set<Sighting>, s: State, c: Cycle, m: nat, row: RowKey, f: PriceField)
    requires Explains(seen, s.pending) && m < |c.order|
    requires ViaGate(ValidOf(s.db, c), c.order[m]) && !c.env.faults(c.order[m]).price
    requires Changes(MidIdeal(s, c, m), MidIdeal(s, c, m + 1), row, f)
    ensures var k, s' := c.order[m], MidIdeal(s, c, m + 1);
            var d := Sorted(ValidOf(s.db, c), k)[0];
            && f == k.field && row in s'.db.prices && Column(s'.db.prices[row], f) == ToSteps(d.newValue)
            && exists o :: o in seen + SightingsOf(ValidOf(s.db, c), c.order[..m])
                           && KeyOfSighting(o) == SingleKey(k, d) && Abs(o.value - d.newValue) < EPSILON
  {
    var ids := SourceIds(s.db, c.diffs, c.env.badSources);
    var valid, s0 := Valid(c.diffs, ids), s.(pending := Live(s.pending, c.env.sweepAt));
    VisitsExplain(seen, s0, valid, ids, c.env, c.order[..m]);
    assert c.order[..m + 1][..m] == c.order[..m];
    VisitChange(seen + SightingsOf(valid, c.order[..m]), MidIdeal(s, c, m), valid, ids, c.env, c.order[m], row, f);
  }

  /** The visit confirmed, within the tolerance, a report of the same model, field and provider that
      the run had sighted before, or that explains an entry it began with. */
  predicate SeenTwice(seen: set<Sighting>, k: GroupKey, d: PriceDiff) {
    exists o :: o in seen && KeyOfSighting(o) == SingleKey(k, d) && Abs(o.value - d.newValue) < EPSILON
  }

  /** Over any run with restarts and store failures: where the lookup in publish works, the single-source
      path changes a positive stored column only to a reported value of that very field that was
      sighted at least once before. */
  lemma ChangeNeedsTwoSightings(w: World, start: int, seen: set<Sighting>, turns: seq<Turn>, t: Turn, m: nat,
                                row: RowKey, f: PriceField)
    requires Consistent(w, start) && Explains(seen, Meant(w, start).pending)
    requires RunClocked(start, turns) && Clocked(t.cycle, EndOf(start, turns)) && t.cycle.diffs != [] && m < |t.cycle.order|
    requires var w' := RunProcess(w, turns);
             && ViaGate(ValidOf(w'.st.db, t.cycle), t.cycle.order[m]) && !t.cycle.env.faults(t.cycle.order[m]).price
             && Changes(Midway(w', t, m).st, Midway(w', t, m + 1).st, row, f)
    ensures var valid, k := ValidOf(RunProcess(w, turns).st.db, t.cycle), t.cycle.order[m];
            var d, s' := Sorted(valid, k)[0], Midway(RunProcess(w, turns), t, m + 1).st;
            && f == k.field && row in s'.db.prices && Column(s'.db.prices[row], f) == ToSteps(d.newValue)
            && SeenTwice(SeenBy(seen, Meant(w, start), turns) + SightingsOf(valid, t.cycle.order[..m]), k, d)
  {
    var s, end := Meant(w, start), EndOf(start, turns);
    ConsistentIsCoupled(w, start);
    ProcessRefinesIdeal(w, s, start, turns);
    var w', s1 := RunProcess(w, turns), RunIdeal(s, turns);
    MidwayIsIdeal(w', s1, end, t, m);
    MidwayIsIdeal(w', s1, end, t, m + 1);
    RunExplains(seen, s, turns);
    IdealChange(SeenBy(seen, s, turns), s1, t.cycle, m, row, f);
  }

  /** While the providers do not collide, such a report is one of the same model and field. */
  lemma SightingIsOfTheField(o: Sighting, k: GroupKey, d: PriceDiff)
    requires KeyOfSighting(o) == SingleKey(k, d) && !ProvidersCollide(o.provider, EffectiveProvider(d))
    ensures o.slug == k.slug && o.field == k.field && o.provider == EffectiveProvider(d)
  {
    KeyInjective(o.slug, o.field, o.provider, k.slug, k.field, EffectiveProvider(d));
  }
}
