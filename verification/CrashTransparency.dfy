/** Restarts between cycles are invisible: the Redis mirror carries the pending map
    (internal/reconciler/pending.go, internal/reconciler/reconciler.go). */
module CrashTransparency {
  import opened PriceStore
  import opened PendingMirror
  import opened Reconciler

  /** One turn of a worker: possibly a restart, then a Reconcile call. */
  datatype Turn = Turn(restart: bool, cycle: Cycle)

  function RunTurn(w: World, t: Turn): World {
    RunCycle(if t.restart then Restarted(w) else w, t.cycle)
  }

  function RunProcess(w: World, turns: seq<Turn>): World {
    if turns == [] then w
    else RunTurn(RunProcess(w, turns[..|turns| - 1]), turns[|turns| - 1])
  }

  /** The reconciler as if it had one memory that never dies and no Redis at all. */
  function IdealCycle(s: State, c: Cycle): State {
    if c.diffs == [] then s
    else
      var ids := SourceIds(s.db, c.diffs, c.env.badSources);
      Steps(s.(pending := Live(s.pending, c.env.sweepAt)), Valid(c.diffs, ids), ids, c.env, c.order)
  }

  function RunIdeal(s: State, turns: seq<Turn>): State {
    if turns == [] then s
    else IdealCycle(RunIdeal(s, turns[..|turns| - 1]), turns[|turns| - 1].cycle)
  }

  // ---------------------------------------------------------------- clocks

  /** The clock readings of one cycle never go back. */
  predicate Clocked(c: Cycle, start: int) {
    && start <= c.env.loadAt <= c.env.sweepAt
    && (forall i :: 0 <= i < |c.order| ==> c.env.sweepAt <= c.env.at(c.order[i]))
    && (forall i, j :: 0 <= i < j < |c.order| ==> c.env.at(c.order[i]) <= c.env.at(c.order[j]))
  }

  function TimeAfter(env: Env, order: seq<GroupKey>): int {
    if order == [] then env.sweepAt else env.at(order[|order| - 1])
  }

  function EndOf(start: int, turns: seq<Turn>): int {
    if turns == [] then start
    else var c := turns[|turns| - 1].cycle; TimeAfter(c.env, c.order)
  }

  predicate RunClocked(start: int, turns: seq<Turn>) {
    forall i :: 0 <= i < |turns| ==> Clocked(turns[i].cycle, EndOf(start, turns[..i]))
  }

  // ---------------------------------------------------------------- the mirror invariant

  /** No entry outlives the hash, and none is from the future. */
  predicate Covers(h: RedisHash, now: int) {
    forall k :: k in h.entries ==> h.entries[k].lastSeen + PENDING_TTL <= h.expireAt && h.entries[k].lastSeen <= now
  }

  /** The unexpired part of the hash is the unexpired part of the pending map. */
  predicate InStep(h: RedisHash, p: Pending, now: int) {
    Covers(h, now) && Live(HGetAll(h, now), now) == Live(p, now)
  }

  predicate Consistent(w: World, now: int) {
    && Covers(w.redis, now)
    && (w.loaded ==> InStep(w.redis, w.st.pending, now))
    && (!w.loaded ==> w.st.pending == map[])
  }

  /** The pending map a process stands for: its own once loaded, else the hash. */
  function Meant(w: World, now: int): State {
    if w.loaded then w.st else w.st.(pending := HGetAll(w.redis, now))
  }

  predicate Coupled(w: World, s: State, now: int) {
    && w.st.db == s.db && w.st.log == s.log
    && InStep(w.redis, s.pending, now)
    && (if w.loaded then w.st.pending == s.pending else w.st.pending == map[])
  }

  lemma InStepLater(h: RedisHash, p: Pending, t: int, t': int)
    requires InStep(h, p, t) && t <= t'
    ensures InStep(h, p, t')
  {
    var a, b := Live(HGetAll(h, t'), t'), Live(p, t');
    forall k
      ensures (k in a <==> k in b) && (k in a ==> a[k] == b[k])
    {
      assert k in Live(p, t) <==> k in Live(HGetAll(h, t), t);
      assert k in Live(p, t) ==> Live(p, t)[k] == Live(HGetAll(h, t), t)[k];
      assert k in b ==> k in Live(p, t);
    }
  }

  lemma PersistInStep(h: RedisHash, p: Pending, key: string, e: Entry, now: int)
    requires InStep(h, p, now) && e.lastSeen == now
    ensures InStep(HSetExpire(h, key, e, now), p[key := e], now)
  {
    assert Live(HGetAll(h, now)[key := e], now) == Live(HGetAll(h, now), now)[key := e];
    assert Live(p[key := e], now) == Live(p, now)[key := e];
  }

  lemma RemoveInStep(h: RedisHash, p: Pending, key: string, now: int)
    requires InStep(h, p, now)
    ensures InStep(HDel(h, {key}, now), p - {key}, now)
  {
    assert HGetAll(HDel(h, {key}, now), now) == HGetAll(h, now) - {key};
    assert Live(HGetAll(h, now) - {key}, now) == Live(HGetAll(h, now), now) - {key};
    assert Live(p - {key}, now) == Live(p, now) - {key};
  }

  lemma MirrorFollowsGate(h: RedisHash, p: Pending, key: string, value: real, source: string, found: bool, now: int)
    requires InStep(h, p, now)
    ensures var g := Gate(p, key, value, source, found, now);
            InStep(ApplyMirror(h, key, g.mirror, now), g.pending, now)
  {
    match Gate(p, key, value, source, found, now).mirror
    case NoOp =>
    case Persist(e) => PersistInStep(h, p, key, e, now);
    case Remove => RemoveInStep(h, p, key, now);
  }

  lemma StepStaysInStep(w: World, valid: seq<DiffEngine.PriceDiff>, ids: map<string, int>, env: Env, k: GroupKey)
    requires InStep(w.redis, w.st.pending, env.at(k))
    ensures var w' := StepWorld1(w, valid, ids, env, k);
            w'.st == Step1(w.st, valid, ids, env, k) && InStep(w'.redis, w'.st.pending, env.at(k))
  {
    var g, f, now := Sorted(valid, k), env.faults(k), env.at(k);
    if !Skipped(w.st, valid, k, f) && IsSingle(g) {
      var d := g[0];
      var key := RowKey(w.st.db.models[k.slug], MultiSource.IdOf(ids, d.source));
      MirrorFollowsGate(w.redis, w.st.pending, SingleKey(k, d), d.newValue, d.source, f.lookup || key in w.st.db.prices, now);
    }
  }

  lemma {:induction false} StepsStayInStep(w: World, valid: seq<DiffEngine.PriceDiff>, ids: map<string, int>,
                                           env: Env, order: seq<GroupKey>)
    requires InStep(w.redis, w.st.pending, env.sweepAt)
    requires forall i :: 0 <= i < |order| ==> env.sweepAt <= env.at(order[i])
    requires forall i, j :: 0 <= i < j < |order| ==> env.at(order[i]) <= env.at(order[j])
    ensures var w' := StepsWorld(w, valid, ids, env, order);
            && w'.st == Steps(w.st, valid, ids, env, order) && w'.loaded == w.loaded
            && InStep(w'.redis, w'.st.pending, TimeAfter(env, order))
  {
    if order != [] {
      var n := |order| - 1;
      StepsStayInStep(w, valid, ids, env, order[..n]);
      var m := StepsWorld(w, valid, ids, env, order[..n]);
      InStepLater(m.redis, m.st.pending, TimeAfter(env, order[..n]), env.at(order[n]));
      StepStaysInStep(m, valid, ids, env, order[n]);
    }
  }

  /** After hydration and sweep, memory holds exactly the unexpired entries, restart or not. */
  lemma HydrateAndSweep(w: World, s: State, t: int, loadAt: int, sweepAt: int)
    requires Coupled(w, s, t) && t <= loadAt <= sweepAt
    ensures var w' := Swept(Loaded(w, loadAt), sweepAt);
            && w'.loaded && w'.st == s.(pending := Live(s.pending, sweepAt))
            && InStep(w'.redis, w'.st.pending, sweepAt)
  {
    InStepLater(w.redis, s.pending, t, loadAt);
    InStepLater(w.redis, s.pending, t, sweepAt);
    var l := Loaded(w, loadAt);
    assert Live(l.st.pending, sweepAt) == Live(s.pending, sweepAt) by {
      if !w.loaded {
        assert l.st.pending == Live(s.pending, loadAt);
        LiveTwice(s.pending, loadAt, sweepAt);
      }
    }
    SweptMemory(l.st.pending, sweepAt);
    SweptHash(w.redis, s.pending, l.st.pending, sweepAt);
    LiveTwice(s.pending, sweepAt, sweepAt);
  }

  lemma LiveTwice(p: Pending, t: int, t': int)
    requires t <= t'
    ensures Live(Live(p, t), t') == Live(p, t')
  {
  }

  lemma SweptMemory(p: Pending, now: int)
    ensures p - StaleKeys(p, now) == Live(p, now)
  {
  }

  /** Deleting what memory found stale takes no unexpired entry from the hash. */
  lemma SweptHash(h: RedisHash, p: Pending, memory: Pending, now: int)
    requires InStep(h, p, now) && Live(memory, now) == Live(p, now)
    ensures InStep(HDel(h, StaleKeys(memory, now), now), Live(p, now), now)
  {
    var stale, h' := StaleKeys(memory, now), HDel(h, StaleKeys(memory, now), now);
    assert forall k :: k in stale ==> k !in Live(memory, now);
    assert Live(HGetAll(h', now), now) == Live(HGetAll(h, now), now);
    LiveTwice(p, now, now);
  }

  lemma CycleStaysCoupled(w: World, s: State, t: int, c: Cycle)
    requires Coupled(w, s, t) && Clocked(c, t)
    ensures Coupled(RunCycle(w, c), IdealCycle(s, c), TimeAfter(c.env, c.order))
  {
    if c.diffs == [] {
      assert t <= TimeAfter(c.env, c.order);
      InStepLater(w.redis, s.pending, t, TimeAfter(c.env, c.order));
    } else {
      HydrateAndSweep(w, s, t, c.env.loadAt, c.env.sweepAt);
      var ids := SourceIds(s.db, c.diffs, c.env.badSources);
      StepsStayInStep(Swept(Loaded(w, c.env.loadAt), c.env.sweepAt), Valid(c.diffs, ids), ids, c.env, c.order);
    }
  }

  lemma TurnStaysCoupled(w: World, s: State, t: int, turn: Turn)
    requires Coupled(w, s, t) && Clocked(turn.cycle, t)
    ensures Coupled(RunTurn(w, turn), IdealCycle(s, turn.cycle), TimeAfter(turn.cycle.env, turn.cycle.order))
  {
    CycleStaysCoupled(if turn.restart then Restarted(w) else w, s, t, turn.cycle);
  }

  lemma ClockedPrefix(start: int, turns: seq<Turn>, n: nat)
    requires n <= |turns| && RunClocked(start, turns)
    ensures RunClocked(start, turns[..n])
  {
    assert forall i :: 0 <= i < n ==> turns[..n][i] == turns[i] && turns[..n][..i] == turns[..i];
  }

  /** A process with restarts anywhere between cycles refines the immortal one without Redis. */
  lemma {:induction false} ProcessRefinesIdeal(w: World, s: State, start: int, turns: seq<Turn>)
    requires Coupled(w, s, start) && RunClocked(start, turns)
    ensures Coupled(RunProcess(w, turns), RunIdeal(s, turns), EndOf(start, turns))
  {
    if turns != [] {
      var n := |turns| - 1;
      ClockedPrefix(start, turns, n);
      ProcessRefinesIdeal(w, s, start, turns[..n]);
      TurnStaysCoupled(RunProcess(w, turns[..n]), RunIdeal(s, turns[..n]), EndOf(start, turns[..n]), turns[n]);
    }
  }

  lemma {:induction false} IdealIgnoresRestarts(s: State, start: int, a: seq<Turn>, b: seq<Turn>)
    requires |a| == |b| && forall i :: 0 <= i < |a| ==> a[i].cycle == b[i].cycle
    ensures RunIdeal(s, a) == RunIdeal(s, b) && EndOf(start, a) == EndOf(start, b)
  {
    if a != [] {
      IdealIgnoresRestarts(s, start, a[..|a| - 1], b[..|b| - 1]);
    }
  }

  lemma ConsistentIsCoupled(w: World, now: int)
    requires Consistent(w, now)
    ensures Coupled(w, Meant(w, now), now)
  {
  }

  /** Two runs over the same cycles that differ only in where the process restarted commit the
      same publishes and flags in the same order, end with the same tables, and agree on every
      pending entry that has not expired. */
  lemma CrashTransparent(w: World, start: int, a: seq<Turn>, b: seq<Turn>)
    requires Consistent(w, start) && RunClocked(start, a)
    requires |a| == |b| && forall i :: 0 <= i < |a| ==> a[i].cycle == b[i].cycle
    ensures var wa, wb, end := RunProcess(w, a), RunProcess(w, b), EndOf(start, a);
            && wa.st.log == wb.st.log && wa.st.db == wb.st.db
            && Consistent(wa, end) && Consistent(wb, end)
            && Live(Meant(wa, end).pending, end) == Live(Meant(wb, end).pending, end)
  {
    var s := Meant(w, start);
    ConsistentIsCoupled(w, start);
    forall i | 0 <= i < |b|
      ensures Clocked(b[i].cycle, EndOf(start, b[..i]))
    {
      IdealIgnoresRestarts(s, start, a[..i], b[..i]);
    }
    ProcessRefinesIdeal(w, s, start, a);
    ProcessRefinesIdeal(w, s, start, b);
    IdealIgnoresRestarts(s, start, a, b);
  }
}
