/** Every Medium publish of the gate costs two reports, over whole runs of the process with restarts
    (internal/reconciler/reconciler.go, internal/reconciler/pending.go). */
module PublishBudget {
  import opened Prices
  import opened DiffEngine
  import opened PriceStore
  import opened HistoryTruth
  import opened PendingMirror
  import opened Reconciler
  import opened CrashTransparency
  import opened CompanionColumn

  /** The visit puts a report of this pending key through the gate. */
  predicate Reports(s: State, valid: seq<PriceDiff>, env: Env, k: GroupKey, key: string) {
    ViaGate(valid, k) && !Skipped(s, valid, k, env.faults(k)) && KeyOfSighting(SightingAt(valid, k)) == key
  }

  /** ... and publishes it at Medium. */
  predicate Spends(s: State, s': State, valid: seq<PriceDiff>, env: Env, k: GroupKey, key: string) {
    Reports(s, valid, env, k, key) && s.log < s'.log && s'.log[|s.log|].PublishStep? && s'.log[|s.log|].confidence == Medium
  }

  /** The reports of the key in the first n visits of a turn. */
  function ReportsIn(w: World, t: Turn, key: string, n: nat): nat
    requires n <= |t.cycle.order|
  {
    if n == 0 || t.cycle.diffs == [] then 0
    else
      var c, s := t.cycle, Midway(w, t, n - 1).st;
      ReportsIn(w, t, key, n - 1) + if Reports(s, ValidOf(w.st.db, c), c.env, c.order[n - 1], key) then 1 else 0
  }

  /** Their Medium publishes. */
  function SpentIn(w: World, t: Turn, key: string, n: nat): nat
    requires n <= |t.cycle.order|
  {
    if n == 0 || t.cycle.diffs == [] then 0
    else
      var c, s, s' := t.cycle, Midway(w, t, n - 1).st, Midway(w, t, n).st;
      SpentIn(w, t, key, n - 1) + if Spends(s, s', ValidOf(w.st.db, c), c.env, c.order[n - 1], key) then 1 else 0
  }

  function ReportsOf(w: World, turns: seq<Turn>, key: string): nat {
    if turns == [] then 0
    else
      var n := |turns| - 1;
      ReportsOf(w, turns[..n], key) + ReportsIn(RunProcess(w, turns[..n]), turns[n], key, |turns[n].cycle.order|)
  }

  function SpentOf(w: World, turns: seq<Turn>, key: string): nat {
    if turns == [] then 0
    else
      var n := |turns| - 1;
      SpentOf(w, turns[..n], key) + SpentIn(RunProcess(w, turns[..n]), turns[n], key, |turns[n].cycle.order|)
  }

  /** How often the waiting report of the key was seen. */
  function Waiting(p: Pending, key: string): nat {
    if key in p && p[key].count > 0 then p[key].count else 0
  }

  // ---------------------------------------------------------------- one visit

  lemma GateBudget(p: Pending, gateKey: string, value: real, source: string, found: bool, now: int, key: string)
    ensures var g := Gate(p, gateKey, value, source, found, now);
            Waiting(g.pending, key) + (if gateKey == key && g.verdict == Confirmed then 2 else 0) <=
            Waiting(p, key) + (if gateKey == key then 1 else 0)
  {
  }

  /** Only a confirmed report is published at Medium by the gate. */
  lemma SpendsIsConfirmed(s: State, valid: seq<PriceDiff>, ids: map<string, int>, env: Env, k: GroupKey)
    requires ViaGate(valid, k) && !Skipped(s, valid, k, env.faults(k))
    ensures var s', d := Step1(s, valid, ids, env, k), Sorted(valid, k)[0];
            var row := RowKey(s.db.models[k.slug], MultiSource.IdOf(ids, d.source));
            s.log < s'.log && s'.log[|s.log|].PublishStep? && s'.log[|s.log|].confidence == Medium ==>
              SingleGate(s, k, row, d, env.at(k), env.faults(k)).verdict == Confirmed
  {
  }

  lemma VisitBudget(s: State, valid: seq<PriceDiff>, ids: map<string, int>, env: Env, k: GroupKey, key: string)
    ensures var s' := Step1(s, valid, ids, env, k);
            Waiting(s'.pending, key) + (if Spends(s, s', valid, env, k, key) then 2 else 0) <=
            Waiting(s.pending, key) + (if Reports(s, valid, env, k, key) then 1 else 0)
  {
    VisitPending(s, valid, ids, env, k);
    if ViaGate(valid, k) && !Skipped(s, valid, k, env.faults(k)) {
      var d := Sorted(valid, k)[0];
      var row := RowKey(s.db.models[k.slug], MultiSource.IdOf(ids, d.source));
      GateBudget(s.pending, SingleKey(k, d), d.newValue, d.source, env.faults(k).lookup || row in s.db.prices, env.at(k), key);
      SpendsIsConfirmed(s, valid, ids, env, k);
    }
  }

  // ---------------------------------------------------------------- whole runs

  lemma {:induction false} TurnBudget(w: World, s: State, start: int, t: Turn, key: string, n: nat)
    requires Coupled(w, s, start) && Clocked(t.cycle, start) && n <= |t.cycle.order| && t.cycle.diffs != []
    ensures Waiting(MidIdeal(s, t.cycle, n).pending, key) + 2 * SpentIn(w, t, key, n) <=
            Waiting(s.pending, key) + ReportsIn(w, t, key, n)
  {
    if n > 0 {
      TurnBudget(w, s, start, t, key, n - 1);
      MidwayBudget(w, s, start, t, n, key);
    } else {
      assert t.cycle.order[..0] == [];
    }
  }

  lemma MidwayBudget(w: World, s: State, start: int, t: Turn, n: nat, key: string)
    requires Coupled(w, s, start) && Clocked(t.cycle, start) && 0 < n <= |t.cycle.order| && t.cycle.diffs != []
    ensures var before, after, k := MidIdeal(s, t.cycle, n - 1), MidIdeal(s, t.cycle, n), t.cycle.order[n - 1];
            && before == Midway(w, t, n - 1).st && after == Midway(w, t, n).st
            && Waiting(after.pending, key) + (if Spends(before, after, ValidOf(w.st.db, t.cycle), t.cycle.env, k, key) then 2 else 0)
               <= Waiting(before.pending, key) + (if Reports(before, ValidOf(w.st.db, t.cycle), t.cycle.env, k, key) then 1 else 0)
  {
    MidwayIsIdeal(w, s, start, t, n - 1);
    MidwayIsIdeal(w, s, start, t, n);
    MidBudget(s, t.cycle, n, key);
  }

  lemma MidBudget(s: State, c: Cycle, n: nat, key: string)
    requires 0 < n <= |c.order|
    ensures var before, after, k := MidIdeal(s, c, n - 1), MidIdeal(s, c, n), c.order[n - 1];
            Waiting(after.pending, key) + (if Spends(before, after, ValidOf(s.db, c), c.env, k, key) then 2 else 0) <=
            Waiting(before.pending, key) + (if Reports(before, ValidOf(s.db, c), c.env, k, key) then 1 else 0)
  {
    var ids := SourceIds(s.db, c.diffs, c.env.badSources);
    assert c.order[..n][..n - 1] == c.order[..n - 1];
    VisitBudget(MidIdeal(s, c, n - 1), Valid(c.diffs, ids), ids, c.env, c.order[n - 1], key);
  }

  lemma {:induction false} RunBudget(w: World, s: State, start: int, turns: seq<Turn>, key: string)
    requires Coupled(w, s, start) && RunClocked(start, turns)
    ensures Waiting(RunIdeal(s, turns).pending, key) + 2 * SpentOf(w, turns, key) <=
            Waiting(s.pending, key) + ReportsOf(w, turns, key)
  {
    if turns != [] {
      var n := |turns| - 1;
      var t, end := turns[n], EndOf(start, turns[..n]);
      ClockedPrefix(start, turns, n);
      RunBudget(w, s, start, turns[..n], key);
      ProcessRefinesIdeal(w, s, start, turns[..n]);
      var w1, s1 := RunProcess(w, turns[..n]), RunIdeal(s, turns[..n]);
      if t.cycle.diffs != [] {
        TurnBudget(w1, s1, end, t, key, |t.cycle.order|);
        assert t.cycle.order[..|t.cycle.order|] == t.cycle.order;
      } else {
        NoVisits(w1, t, key, |t.cycle.order|);
      }
    }
  }

  lemma NoVisits(w: World, t: Turn, key: string, n: nat)
    requires n <= |t.cycle.order| && t.cycle.diffs == []
    ensures SpentIn(w, t, key, n) == 0 && ReportsIn(w, t, key, n) == 0
  {
  }

  /** Over any run of cycles with restarts between them and store failures: of every pending key, the gate
      makes at most one Medium publish for every two reports, counting those that waited at the start. */
  lemma TwoReportsPerPublish(w: World, start: int, turns: seq<Turn>, key: string)
    requires Consistent(w, start) && RunClocked(start, turns)
    ensures 2 * SpentOf(w, turns, key) <= Waiting(Meant(w, start).pending, key) + ReportsOf(w, turns, key)
    ensures w.st.pending == map[] && w.redis.entries == map[] ==> 2 * SpentOf(w, turns, key) <= ReportsOf(w, turns, key)
  {
    ConsistentIsCoupled(w, start);
    RunBudget(w, Meant(w, start), start, turns, key);
  }
}
