/** The pipeline meets the history: whole runs of handler runs, cycles, restarts and operator actions
    write the tables only through enabled steps, so what holds of those steps holds of the pipeline
    (internal/worker/handlers.go, internal/reconciler/reconciler.go, internal/review/store.go). */
module PipelineHistory {
  import Folds
  import opened Prices
  import opened DiffEngine
  import opened PriceStore
  import opened HistoryTruth
  import opened MultiSource
  import opened Reconciler
  import opened CrashTransparency
  import opened Worker

  /** One scrape handled by a worker, possibly a new process. */
  datatype Scrape = Scrape(restart: bool, source: string, fetched: Option<seq<ScrapedModel>>, io: Io,
                           env: Env, order: seq<GroupKey>)

  /** A handler run, a bare Reconcile call, or between them an operator action (approve, reject) or
      verification stamp. */
  datatype Event = Handle(scrape: Scrape) | Work(turn: Turn) | Operate(step: Step)

  predicate ByOperators(s: Step) {
    s.ApproveStep? || s.RejectStep? || s.VerifyStep?
  }

  /** The log of the reconciler and of the operators holds everything but verification stamps and models. */
  function Writes(steps: seq<Step>): seq<Step> {
    if steps == [] then []
    else
      var rest, s := Writes(steps[..|steps| - 1]), steps[|steps| - 1];
      if s.VerifyStep? || s.EnsureStep? then rest else rest + [s]
  }

  function RunEvent(w: World, e: Event): World {
    match e
    case Handle(h) => Pipeline(if h.restart then Restarted(w) else w, h.source, h.fetched, h.io, h.env, h.order)
    case Work(t) => RunTurn(w, t)
    case Operate(s) =>
      if !ByOperators(s) || !Enabled(w.st.db, s) then w
      else w.(st := w.st.(db := Apply(w.st.db, s), log := w.st.log + Writes([s])))
  }

  function RunEvents(w: World, es: seq<Event>): World {
    if es == [] then w else RunEvent(RunEvents(w, es[..|es| - 1]), es[|es| - 1])
  }

  // ---------------------------------------------------------------- clocks

  predicate Rising(order: seq<GroupKey>, env: Env, start: int) {
    && (forall i :: 0 <= i < |order| ==> start < env.at(order[i]))
    && (forall i, j :: 0 <= i < j < |order| ==> env.at(order[i]) < env.at(order[j]))
  }

  function LastReading(order: seq<GroupKey>, env: Env, start: int): int {
    if order == [] then start else env.at(order[|order| - 1])
  }

  /** The latest clock reading of an event. */
  function TimeOf(e: Event, start: int): int {
    match e
    case Handle(h) => LastReading(h.order, h.env, start)
    case Work(t) => LastReading(t.cycle.order, t.cycle.env, start)
    case Operate(s) => if s.now < start then start else s.now
  }

  function TimeAt(start: int, es: seq<Event>): int {
    if es == [] then start else TimeOf(es[|es| - 1], TimeAt(start, es[..|es| - 1]))
  }

  predicate EventRises(e: Event, start: int) {
    match e
    case Handle(h) => Rising(h.order, h.env, start)
    case Work(t) => Rising(t.cycle.order, t.cycle.env, start)
    case Operate(s) => start < s.now
  }

  /** Every group and every operator action reads a later clock than all before it. */
  predicate ClockRises(start: int, es: seq<Event>) {
    forall i :: 0 <= i < |es| ==> EventRises(es[i], TimeAt(start, es[..i]))
  }

  // ---------------------------------------------------------------- explained states

  ghost predicate AllEnabled(db: Db, steps: seq<Step>) {
    forall i :: 0 <= i < |steps| ==> Enabled(Replay(db, steps[..i]), steps[i])
  }

  predicate StampedBy(steps: seq<Step>, now: int) {
    forall i :: 0 <= i < |steps| && Stamps(steps[i]) ==> steps[i].now <= now
  }

  predicate HistoryBy(h: seq<HistoryRow>, now: int) {
    forall i :: 0 <= i < |h| ==> h[i].confirmedAt <= now
  }

  /** No published price is below half a storage step. */
  predicate Plain(steps: seq<Step>) {
    forall i :: 0 <= i < |steps| ==> AboveHalfStep(steps[i])
  }

  /** From a to b exactly these steps were committed, and logged as far as they are logged. */
  ghost predicate Replayed(a: State, b: State, steps: seq<Step>) {
    b.log == a.log + Writes(steps) && AllEnabled(a.db, steps) && b.db == Replay(a.db, steps)
  }

  /** The stamps rise from the history's on, up to now. */
  predicate Timed(h: seq<HistoryRow>, steps: seq<Step>, now: int) {
    StrictClock(h, steps) && StampedBy(steps, now) && HistoryBy(h, now)
  }

  ghost predicate Explained(a: State, b: State, steps: seq<Step>, now: int) {
    Replayed(a, b, steps) && Timed(a.db.history, steps, now)
  }

  lemma Unmoved(a: State, b: State, b': State, steps: seq<Step>, now: int, later: int)
    requires Explained(a, b, steps, now) && now <= later && b'.db == b.db && b'.log == b.log
    ensures Explained(a, b', steps, later)
  {
  }

  lemma WritesOneMore(steps: seq<Step>, s: Step)
    ensures Writes(steps + [s]) == Writes(steps) + Writes([s])
    ensures Writes([s]) == if s.VerifyStep? || s.EnsureStep? then [] else [s]
  {
    assert (steps + [s])[..|steps|] == steps && [s][..0] == [];
  }

  lemma EnabledOneMore(db: Db, steps: seq<Step>, s: Step)
    requires AllEnabled(db, steps) && Enabled(Replay(db, steps), s)
    ensures AllEnabled(db, steps + [s]) && Replay(db, steps + [s]) == Apply(Replay(db, steps), s)
  {
    var more := steps + [s];
    assert more[..|steps|] == steps;
    assert forall i :: 0 <= i < |steps| ==> more[..i] == steps[..i] && more[i] == steps[i];
  }

  lemma TimedOneMore(h: seq<HistoryRow>, steps: seq<Step>, now: int, s: Step, later: int)
    requires Timed(h, steps, now) && now <= later && (Stamps(s) ==> now < s.now <= later)
    ensures Timed(h, steps + [s], later)
  {
  }

  lemma ReplayedOneMore(a: State, b: State, b': State, steps: seq<Step>, s: Step)
    requires Replayed(a, b, steps) && Enabled(b.db, s) && b'.db == Apply(b.db, s) && b'.log == b.log + Writes([s])
    ensures Replayed(a, b', steps + [s])
  {
    LogOneMore(a.log, steps, s);
    EnabledOneMore(a.db, steps, s);
  }

  lemma LogOneMore(log: seq<Step>, steps: seq<Step>, s: Step)
    ensures log + Writes(steps) + Writes([s]) == log + Writes(steps + [s])
  {
    WritesOneMore(steps, s);
    Folds.Assoc(log, Writes(steps), Writes([s]));
  }

  lemma PlainOneMore(steps: seq<Step>, s: Step)
    ensures Plain(steps + [s]) <==> Plain(steps) && AboveHalfStep(s)
  {
    var more := steps + [s];
    assert more[|steps|] == s && forall i :: 0 <= i < |steps| ==> more[i] == steps[i];
  }

  lemma OneMore(a: State, b: State, b': State, steps: seq<Step>, now: int, s: Step, later: int)
    requires Explained(a, b, steps, now) && now <= later && (Stamps(s) ==> now < s.now <= later)
    requires Enabled(b.db, s) && b'.db == Apply(b.db, s) && b'.log == b.log + Writes([s])
    ensures Explained(a, b', steps + [s], later) && (Plain(steps) && AboveHalfStep(s) ==> Plain(steps + [s]))
  {
    ReplayedOneMore(a, b, b', steps, s);
    TimedOneMore(a.db.history, steps, now, s, later);
    PlainOneMore(steps, s);
  }

  // ---------------------------------------------------------------- what a cycle can publish

  /** A positive price that the columns store as zero. */
  predicate Tiny(v: real) {
    0.0 < v < HALF_STEP
  }

  predicate NoTiny(diffs: seq<PriceDiff>) {
    forall i :: 0 <= i < |diffs| ==> !Tiny(diffs[i].newValue)
  }

  /** What publish writes is the report, the sibling, or a stored value. */
  lemma PublishIsPlain(s: State, key: RowKey, field: PriceField, f: PriceField, value: real, sibling: real, lookupFails: bool)
    requires !Tiny(value) && !Tiny(sibling)
    ensures !Tiny(Completed(s.db, key, field, f, value, sibling, lookupFails))
  {
    if key in s.db.prices {
      StoredSign(Column(s.db.prices[key], f));
      assert FromSteps(Column(s.db.prices[key], f)) * STEPS_PER_UNIT == Column(s.db.prices[key], f) as real;
    }
  }

  lemma {:induction false} GroupIsPart(diffs: seq<PriceDiff>, k: GroupKey)
    requires NoTiny(diffs)
    ensures NoTiny(GroupOf(diffs, k))
  {
    if diffs != [] {
      GroupIsPart(diffs[..|diffs| - 1], k);
    }
  }

  lemma SortedIsPart(diffs: seq<PriceDiff>, k: GroupKey)
    requires NoTiny(diffs)
    ensures NoTiny(Sorted(diffs, k)) && !Tiny(Sibling(diffs, k))
  {
    GroupIsPart(diffs, k);
    GroupIsPart(diffs, GroupKey(k.slug, OtherField(k.field)));
    var g, t := GroupOf(diffs, k), Sorted(diffs, k);
    SortSorts(g);
    forall i | 0 <= i < |t|
      ensures !Tiny(t[i].newValue)
    {
      assert t[i] in multiset(g);
    }
  }

  lemma {:induction false} ValidIsPart(diffs: seq<PriceDiff>, ids: map<string, int>)
    requires NoTiny(diffs)
    ensures NoTiny(Valid(diffs, ids))
  {
    if diffs != [] {
      ValidIsPart(diffs[..|diffs| - 1], ids);
    }
  }

  /** Consensus publishes a reported value. */
  lemma ChoiceIsPlain(g: seq<PriceDiff>, ids: map<string, int>)
    requires |g| >= 2 && NoTiny(g) && Decide(ValuesOf(g, ids)).publish.Some?
    ensures !Tiny(Decide(ValuesOf(g, ids)).publish.value.value)
  {
    var k := PublishedIsBacked(ValuesOf(g, ids));
  }

  // ---------------------------------------------------------------- one step after the other

  /** A publish is one enabled step, or nothing. */
  lemma PublishIsStep(b: State, key: RowKey, field: PriceField, value: real, c: Confidence, under: string,
                      sibling: real, now: int, f: Faults) returns (s: Option<Step>)
    ensures var b' := PublishTo(b, key, field, value, c, under, sibling, now, f);
            match s
            case None => b' == b
            case Some(x) =>
              && x.PublishStep? && x.now == now && Enabled(b.db, x)
              && b' == b.(db := Apply(b.db, x), log := b.log + [x])
              && (!Tiny(value) && !Tiny(sibling) ==> AboveHalfStep(x))
  {
    var input := Completed(b.db, key, field, Input, value, sibling, f.price);
    var output := Completed(b.db, key, field, Output, value, sibling, f.price);
    if input <= 0.0 || output <= 0.0 || f.publish || !Fits(input) || !Fits(output) {
      return None;
    }
    if !Tiny(value) && !Tiny(sibling) {
      PublishIsPlain(b, key, field, Input, value, sibling, f.price);
      PublishIsPlain(b, key, field, Output, value, sibling, f.price);
    }
    s := Some(PublishStep(key, input, output, c, under, now));
  }

  lemma PublishExplained(a: State, b: State, steps: seq<Step>, t: int, key: RowKey, field: PriceField, value: real,
                         c: Confidence, under: string, sibling: real, now: int, f: Faults) returns (more: seq<Step>)
    requires Explained(a, b, steps, t) && t < now
    ensures Explained(a, PublishTo(b, key, field, value, c, under, sibling, now, f), more, now)
    ensures Plain(steps) && !Tiny(value) && !Tiny(sibling) ==> Plain(more)
  {
    var b' := PublishTo(b, key, field, value, c, under, sibling, now, f);
    var s := PublishIsStep(b, key, field, value, c, under, sibling, now, f);
    if s.None? {
      Unmoved(a, b, b', steps, t, now);
      return steps;
    }
    WritesOneMore(steps, s.value);
    OneMore(a, b, b', steps, t, s.value, now);
    more := steps + [s.value];
  }

  lemma FlagExplained(a: State, b: State, steps: seq<Step>, t: int, model: int, field: PriceField,
                      d: Dispute, now: int, f: Faults) returns (more: seq<Step>)
    requires Explained(a, b, steps, t)
    ensures Explained(a, Flagged(b, model, field, d, now, f), more, t)
    ensures Plain(steps) ==> Plain(more)
  {
    var b' := Flagged(b, model, field, d, now, f);
    if b' == b {
      return steps;
    }
    var s := FlagStep(model, d.a.source, d.b.source, field, d.a.value, d.b.value, d.delta, now);
    WritesOneMore(steps, s);
    OneMore(a, b, b', steps, t, s, t);
    more := steps + [s];
  }

  lemma MultiExplained(a: State, b: State, steps: seq<Step>, t: int, k: GroupKey, model: int, g: seq<PriceDiff>,
                       ids: map<string, int>, sib: real, now: int, f: Faults) returns (more: seq<Step>)
    requires Explained(a, b, steps, t) && t < now && |g| >= 2
    ensures Explained(a, Multi(b, k, model, g, ids, sib, now, f), more, now)
    ensures Plain(steps) && NoTiny(g) && !Tiny(sib) ==> Plain(more)
  {
    var d := Decide(ValuesOf(g, ids));
    more := steps;
    var b1 := b;
    if d.flag.Some? {
      b1 := Flagged(b, model, k.field, d.flag.value, now, f);
      more := FlagExplained(a, b, steps, t, model, k.field, d.flag.value, now, f);
    }
    match d.publish
    case None => Unmoved(a, b1, b1, more, t, now);
    case Some(c) =>
      more := PublishExplained(a, b1, more, t, RowKey(model, c.source), k.field, c.value, c.confidence,
                               g[0].underlying, sib, now, f);
      if NoTiny(g) {
        ChoiceIsPlain(g, ids);
      }
  }

  lemma SingleExplained(a: State, b: State, steps: seq<Step>, t: int, k: GroupKey, key: RowKey, d: PriceDiff,
                        sib: real, now: int, f: Faults) returns (more: seq<Step>)
    requires Explained(a, b, steps, t) && t < now
    ensures Explained(a, Single(b, k, key, d, sib, now, f), more, now)
    ensures Plain(steps) && !Tiny(d.newValue) && !Tiny(sib) ==> Plain(more)
  {
    var gated := SingleGate(b, k, key, d, now, f);
    var b1 := b.(pending := gated.pending);
    Unmoved(a, b, b1, steps, t, t);
    Unmoved(a, b, b1, steps, t, now);
    match gated.verdict
    case Hold => more := steps;
    case FirstSeen =>
      more := PublishExplained(a, b1, steps, t, key, k.field, d.newValue, Low, d.underlying, sib, now, f);
    case Confirmed =>
      more := PublishExplained(a, b1, steps, t, key, k.field, d.newValue, Medium, d.underlying, sib, now, f);
  }

  lemma VisitExplained(a: State, b: State, steps: seq<Step>, t: int, valid: seq<PriceDiff>,
                       ids: map<string, int>, env: Env, k: GroupKey) returns (more: seq<Step>)
    requires Explained(a, b, steps, t) && t < env.at(k)
    ensures Explained(a, Step1(b, valid, ids, env, k), more, env.at(k))
    ensures Plain(steps) && NoTiny(valid) ==> Plain(more)
  {
    var g, f, now, sib := Sorted(valid, k), env.faults(k), env.at(k), Sibling(valid, k);
    if NoTiny(valid) {
      SortedIsPart(valid, k);
    }
    if Skipped(b, valid, k, f) {
      Unmoved(a, b, b, steps, t, now);
      return steps;
    }
    var model := b.db.models[k.slug];
    if IsSingle(g) {
      more := SingleExplained(a, b, steps, t, k, RowKey(model, IdOf(ids, g[0].source)), g[0], sib, now, f);
    } else {
      more := MultiExplained(a, b, steps, t, k, model, g, ids, sib, now, f);
    }
  }

  lemma RisingSplit(order: seq<GroupKey>, env: Env, start: int)
    requires order != [] && Rising(order, env, start)
    ensures var n := |order| - 1;
            Rising(order[..n], env, start) && LastReading(order[..n], env, start) < env.at(order[n])
  {
  }

  lemma {:induction false} VisitsExplained(a: State, w: World, steps: seq<Step>, t: int, valid: seq<PriceDiff>,
                                           ids: map<string, int>, env: Env, order: seq<GroupKey>) returns (more: seq<Step>)
    requires Explained(a, w.st, steps, t) && Rising(order, env, t)
    ensures Explained(a, StepsWorld(w, valid, ids, env, order).st, more, LastReading(order, env, t))
    ensures Plain(steps) && NoTiny(valid) ==> Plain(more)
  {
    if order == [] {
      return steps;
    }
    var n := |order| - 1;
    RisingSplit(order, env, t);
    more := VisitsExplained(a, w, steps, t, valid, ids, env, order[..n]);
    more := VisitExplained(a, StepsWorld(w, valid, ids, env, order[..n]).st, more, LastReading(order[..n], env, t),
                           valid, ids, env, order[n]);
  }

  lemma CycleExplained(a: State, w: World, steps: seq<Step>, t: int, c: Cycle) returns (more: seq<Step>)
    requires Explained(a, w.st, steps, t) && Rising(c.order, c.env, t)
    ensures Explained(a, RunCycle(w, c).st, more, LastReading(c.order, c.env, t))
    ensures Plain(steps) && NoTiny(c.diffs) ==> Plain(more)
  {
    if c.diffs == [] {
      Unmoved(a, w.st, w.st, steps, t, LastReading(c.order, c.env, t));
      return steps;
    }
    var w1 := Swept(Loaded(w, c.env.loadAt), c.env.sweepAt);
    Unmoved(a, w.st, w1.st, steps, t, t);
    var ids := SourceIds(w.st.db, c.diffs, c.env.badSources);
    if NoTiny(c.diffs) {
      ValidIsPart(c.diffs, ids);
    }
    more := VisitsExplained(a, w1, steps, t, Valid(c.diffs, ids), ids, c.env, c.order);
  }

  predicate NoTinyReports(fetched: Option<seq<ScrapedModel>>) {
    fetched.Some? ==> forall i :: 0 <= i < |fetched.value| ==> !Tiny(fetched.value[i].input) && !Tiny(fetched.value[i].output)
  }

  lemma DiffsArePlain(index: map<string, Costs>, reports: seq<ScrapedModel>)
    requires NoTinyReports(Some(reports))
    ensures NoTiny(DiffAll(index, reports))
  {
    var diffs := DiffAll(index, reports);
    forall j | 0 <= j < |diffs|
      ensures !Tiny(diffs[j].newValue)
    {
      DiffMembers(index, reports, diffs[j]);
      var i :| 0 <= i < |reports| && DiffOne(index, reports[i], diffs[j].field) == Some(diffs[j]);
    }
  }

  lemma EnsureExplained(a: State, w: World, steps: seq<Step>, t: int, fetched: Option<seq<ScrapedModel>>, io: Io)
    returns (more: seq<Step>)
    requires Explained(a, w.st, steps, t)
    ensures Explained(a, AfterEnsure(w, fetched, io).st, more, t) && (Plain(steps) ==> Plain(more))
  {
    if fetched.None? {
      return steps;
    }
    var s := EnsureStep(Ensured(w.st.db.models, fetched.value, io), t);
    WritesOneMore(steps, s);
    OneMore(a, w.st, AfterEnsure(w, fetched, io).st, steps, t, s, t);
    more := steps + [s];
  }

  lemma ScrapeExplained(a: State, w: World, steps: seq<Step>, t: int, h: Scrape) returns (more: seq<Step>)
    requires Explained(a, w.st, steps, t) && Rising(h.order, h.env, t)
    ensures Explained(a, Pipeline(w, h.source, h.fetched, h.io, h.env, h.order).st, more, LastReading(h.order, h.env, t))
    ensures Plain(steps) && NoTinyReports(h.fetched) ==> Plain(more)
  {
    var w1, end := AfterEnsure(w, h.fetched, h.io), LastReading(h.order, h.env, t);
    more := EnsureExplained(a, w, steps, t, h.fetched, h.io);
    if !Reached(h.fetched, h.io) {
      Unmoved(a, w1.st, w1.st, more, t, end);
      return;
    }
    var c := Cycle(DiffsFor(w1.st.db, h.source, h.fetched.value), h.order, h.env);
    if NoTinyReports(h.fetched) {
      DiffsArePlain(IndexOf(w1.st.db, h.source), h.fetched.value);
    }
    more := CycleExplained(a, w1, more, t, c);
    if !h.io.verify {
      more := StampExplained(a, RunCycle(w1, c).st, more, end, h.source, SlugsIn(h.fetched.value), h.env.verifyAt);
    }
  }

  lemma StampExplained(a: State, b: State, steps: seq<Step>, t: int, source: string, slugs: seq<string>, at: int)
    returns (more: seq<Step>)
    requires Explained(a, b, steps, t)
    ensures Explained(a, b.(db := Verify(b.db, source, slugs, at)), more, t) && (Plain(steps) ==> Plain(more))
  {
    var s := VerifyStep(source, slugs, at);
    WritesOneMore(steps, s);
    OneMore(a, b, b.(db := Apply(b.db, s)), steps, t, s, t);
    more := steps + [s];
  }

  /** A caller can check this before the run: no report lies strictly between zero and half a step. */
  predicate PlainEvent(e: Event) {
    match e
    case Handle(h) => NoTinyReports(h.fetched)
    case Work(t) => NoTiny(t.cycle.diffs)
    case Operate(_) => true
  }

  lemma OperateExplained(a: State, w: World, steps: seq<Step>, t: int, s: Step) returns (more: seq<Step>)
    requires Explained(a, w.st, steps, t) && t < s.now
    ensures Explained(a, RunEvent(w, Operate(s)).st, more, s.now) && (Plain(steps) ==> Plain(more))
  {
    var w' := RunEvent(w, Operate(s));
    if !ByOperators(s) || !Enabled(w.st.db, s) {
      Unmoved(a, w.st, w'.st, steps, t, s.now);
      return steps;
    }
    OneMore(a, w.st, w'.st, steps, t, s, s.now);
    more := steps + [s];
  }

  lemma EventExplained(a: State, w: World, steps: seq<Step>, t: int, e: Event) returns (more: seq<Step>)
    requires Explained(a, w.st, steps, t) && EventRises(e, t)
    ensures Explained(a, RunEvent(w, e).st, more, TimeOf(e, t)) && (Plain(steps) && PlainEvent(e) ==> Plain(more))
  {
    match e
    case Operate(s) => more := OperateExplained(a, w, steps, t, s);
    case Work(turn) =>
      var w0 := if turn.restart then Restarted(w) else w;
      Unmoved(a, w.st, w0.st, steps, t, t);
      more := CycleExplained(a, w0, steps, t, turn.cycle);
    case Handle(h) =>
      var w0 := if h.restart then Restarted(w) else w;
      Unmoved(a, w.st, w0.st, steps, t, t);
      more := ScrapeExplained(a, w0, steps, t, h);
  }

  lemma RisesPrefix(start: int, es: seq<Event>)
    requires ClockRises(start, es) && es != []
    ensures ClockRises(start, es[..|es| - 1]) && EventRises(es[|es| - 1], TimeAt(start, es[..|es| - 1]))
  {
    var n := |es| - 1;
    assert forall i :: 0 <= i < n ==> es[..n][i] == es[i] && es[..n][..i] == es[..i];
  }

  /** Every run of handler runs, cycles, restarts, store failures and operator actions is a run of
      enabled steps. */
  lemma {:induction false} RunIsExplained(w: World, start: int, es: seq<Event>) returns (steps: seq<Step>)
    requires ClockRises(start, es) && HistoryBy(w.st.db.history, start)
    ensures Explained(w.st, RunEvents(w, es).st, steps, TimeAt(start, es))
    ensures (forall i :: 0 <= i < |es| ==> PlainEvent(es[i])) ==> Plain(steps)
  {
    if es == [] {
      assert Explained(w.st, w.st, [], start);
      return [];
    }
    var n := |es| - 1;
    RisesPrefix(start, es);
    steps := RunIsExplained(w, start, es[..n]);
    steps := EventExplained(w.st, RunEvents(w, es[..n]), steps, TimeAt(start, es[..n]), es[n]);
  }

  // ---------------------------------------------------------------- what follows for the tables

  /** The tables after each prefix of the steps. */
  ghost function States(db: Db, steps: seq<Step>): seq<Db> {
    seq(|steps| + 1, i requires 0 <= i <= |steps| => Replay(db, steps[..i]))
  }

  lemma StatesRun(db: Db, steps: seq<Step>)
    requires AllEnabled(db, steps)
    ensures IsRun(States(db, steps), steps) && States(db, steps)[0] == db
    ensures States(db, steps)[|steps|] == Replay(db, steps)
  {
    assert steps[..|steps|] == steps;
    forall i | 0 <= i < |steps|
      ensures Replay(db, steps[..i + 1]) == Apply(Replay(db, steps[..i]), steps[i])
    {
      assert steps[..i + 1][..i] == steps[..i];
    }
  }

  /** The steps a run logged. */
  function LogSince(a: State, b: State): seq<Step>
    requires a.log <= b.log
  {
    b.log[|a.log|..]
  }

  lemma {:induction false} CommittedIsLogged(steps: seq<Step>)
    ensures Committed(Writes(steps)) == Committed(steps)
  {
    if steps != [] {
      var n := |steps| - 1;
      CommittedIsLogged(steps[..n]);
      var rest := Writes(steps[..n]);
      assert (rest + [steps[n]])[..|rest|] == rest;
    }
  }

  lemma {:induction false} PlainIsLogged(steps: seq<Step>)
    ensures Plain(Writes(steps)) <==> Plain(steps)
  {
    if steps != [] {
      var n := |steps| - 1;
      PlainIsLogged(steps[..n]);
      PlainOneMore(steps[..n], steps[n]);
      PlainOneMore(Writes(steps[..n]), steps[n]);
      assert steps == steps[..n] + [steps[n]];
    }
  }

  /** Over any run of the pipeline with rising clock readings, whatever the order of the groups, the
      restarts and the store failures: the tables are what enabled steps make of them, current prices
      are the last history entries, history only grew at its end by one row for each publish and each
      resolved dispute, and the review queue kept its invariant. */
  lemma PipelineKeepsTruth(w: World, start: int, es: seq<Event>) returns (steps: seq<Step>)
    requires ClockRises(start, es) && HistoryBy(w.st.db.history, start)
    requires Truth(w.st.db) && TimeOrdered(w.st.db.history) && OnePerField(w.st.db.review)
    ensures var a, b := w.st, RunEvents(w, es).st;
            && a.log <= b.log && LogSince(a, b) == Writes(steps)
            && AllEnabled(a.db, steps) && b.db == Replay(a.db, steps)
            && Truth(b.db) && TimeOrdered(b.db.history) && a.db.history <= b.db.history && OnePerField(b.db.review)
            && |b.db.history| - |a.db.history| ==
                 Committed(LogSince(a, b)) + ResolvedRows(b.db.review) - ResolvedRows(a.db.review)
  {
    steps := RunIsExplained(w, start, es);
    var a, b := w.st, RunEvents(w, es).st;
    assert LogSince(a, b) == Writes(steps);
    StatesRun(a.db, steps);
    HistoryIsTruth(States(a.db, steps), steps, |steps|);
    HistoryCount(States(a.db, steps), steps);
    ReviewMachine(States(a.db, steps), steps, |steps|, 0);
    CommittedIsLogged(steps);
  }

  /** Rows the reconciler wrote are positive if and only if every price it published is at least half a
      storage step; and they are if no report lies strictly between zero and half a step. */
  lemma PipelinePositiveIff(w: World, start: int, es: seq<Event>)
    requires ClockRises(start, es) && HistoryBy(w.st.db.history, start)
    requires Truth(w.st.db) && TimeOrdered(w.st.db.history) && ReconcilerPositive(w.st.db.history)
    ensures var a, b := w.st, RunEvents(w, es).st;
            && a.log <= b.log
            && (ReconcilerPositive(b.db.history) <==> Plain(LogSince(a, b)))
            && ((forall i :: 0 <= i < |es| ==> PlainEvent(es[i])) ==> ReconcilerPositive(b.db.history))
  {
    var steps := RunIsExplained(w, start, es);
    assert LogSince(w.st, RunEvents(w, es).st) == Writes(steps);
    StatesRun(w.st.db, steps);
    ReconcilerRowsPositiveIff(States(w.st.db, steps), steps);
    PlainIsLogged(steps);
  }
}
