/** When Redis runs the mirror commands in the order they were issued and a process stops only with
    none outstanding, restarts cannot make an observation count twice
    (internal/reconciler/pending.go, internal/reconciler/reconciler.go). */
module OrderedMirror {
  import opened TwoObservations

  /** Commands arrive in order and none is lost, cycles observe only after hydration, and a process
      ends with no command outstanding. The hash may lapse at any time. */
  predicate Disciplined(s: Sys, m: Move) {
    match m
    case Observe(_, _, _, _, _) => s.loaded
    case Sweep(_) => s.loaded
    case Deliver(i) => i == 0
    case Lose(_) => false
    case Restart => s.inflight == []
    case _ => true
  }

  /** The hash once the outstanding commands have run. */
  function Settle(t: Table, ms: seq<Msg>): Table {
    if ms == [] then t else Executed(Settle(t, ms[..|ms| - 1]), ms[|ms| - 1])
  }

  lemma {:induction false} SettleFirst(t: Table, ms: seq<Msg>)
    requires ms != []
    ensures Settle(t, ms) == Settle(Executed(t, ms[0]), ms[1..])
  {
    var n := |ms| - 1;
    if n == 0 {
      assert ms[..0] == [] && ms[1..] == [];
    } else {
      SettleFirst(t, ms[..n]);
      assert ms[1..][..n - 1] == ms[..n][1..];
    }
  }

  lemma SettleLast(t: Table, ms: seq<Msg>, m: Msg)
    ensures Settle(t, ms + [m]) == Executed(Settle(t, ms), m)
  {
    assert (ms + [m])[..|ms|] == ms;
  }

  /** Losing what the hash holds only loses entries of the settled hash. */
  lemma {:induction false} SettleEmpty(t: Table, ms: seq<Msg>, k: string)
    ensures k in Settle(map[], ms) ==> k in Settle(t, ms) && Settle(t, ms)[k] == Settle(map[], ms)[k]
  {
    if ms != [] {
      SettleEmpty(t, ms[..|ms| - 1], k);
    }
  }

  /** Every entry is an observation of its own key that no publish has used. */
  predicate Unused(s: Sys, t: Table) {
    forall k :: k in t ==>
      && t[k].obs < |s.observations| && s.observations[t[k].obs].key == k
      && forall i :: 0 <= i < |s.pubs| ==> !Uses(s.pubs[i], t[k].obs)
  }

  /** No observation backs two publishes. */
  predicate UsedOnce(pubs: seq<Pub>) {
    forall i, j :: 0 <= i < j < |pubs| ==> !Uses(pubs[j], pubs[i].first) && !Uses(pubs[j], pubs[i].second)
  }

  predicate Faithful(s: Sys) {
    && Sound(s) && UsedOnce(s.pubs)
    && (if s.loaded then Unused(s, s.memory) && Unused(s, Settle(s.redis, s.inflight))
        else
          && s.memory == map[] && s.inflight == [] && Unused(s, s.redis)
          && forall i :: 0 <= i < |s.snapshots| ==> Unused(s, s.snapshots[i]))
  }

  /** A later state in which no publish was added keeps what was unused. */
  lemma UnusedStays(s: Sys, s': Sys, t: Table, t': Table)
    requires Unused(s, t) && s'.pubs == s.pubs && s.observations <= s'.observations
    requires forall k :: k in t' ==> k in t && t'[k] == t[k]
    ensures Unused(s', t')
  {
  }

  lemma RememberStaysUnused(s: Sys, t: Table, key: string, value: real, h: Held)
    requires Sound(s) && Unused(s, t) && h.obs == |s.observations|
    ensures Unused(Seen(s, key, value), t[key := h])
  {
    forall i | 0 <= i < |s.pubs|
      ensures !Uses(s.pubs[i], h.obs)
    {
      assert Backed(s, s.pubs[i]);
    }
  }

  /** A publish uses an observation of its key and a new one; entries of other keys use neither. */
  lemma ConfirmStaysUnused(s: Sys, t: Table, key: string, value: real, first: nat)
    requires Unused(s, t) && key !in t && first < |s.observations| && s.observations[first].key == key
    ensures Unused(TwoObservations.Confirmed(SeenWithout(s, key, value), key, first, |s.observations|), t)
  {
    var c := TwoObservations.Confirmed(SeenWithout(s, key, value), key, first, |s.observations|);
    forall k | k in t
      ensures c.observations[t[k].obs].key == k && forall i :: 0 <= i < |c.pubs| ==> !Uses(c.pubs[i], t[k].obs)
    {
      assert c.observations[t[k].obs] == s.observations[t[k].obs];
    }
  }

  lemma ConfirmUsesOnce(s: Sys, key: string, first: nat)
    requires Sound(s) && UsedOnce(s.pubs) && forall i :: 0 <= i < |s.pubs| ==> !Uses(s.pubs[i], first)
    ensures UsedOnce(s.pubs + [Pub(key, first, |s.observations|)])
  {
    var pubs := s.pubs + [Pub(key, first, |s.observations|)];
    forall i, j | 0 <= i < j < |pubs|
      ensures !Uses(pubs[j], pubs[i].first) && !Uses(pubs[j], pubs[i].second)
    {
      assert Backed(s, s.pubs[i]);
    }
  }

  lemma ObserveStaysFaithful(s: Sys, m: Move)
    requires Faithful(s) && m.Observe? && s.loaded
    ensures Faithful(Apply(s, m))
  {
    var key, value := m.key, m.value;
    var s', t, p := Apply(s, m), SeenWithout(s, key, value), Settle(s.redis, s.inflight);
    ObserveStaysSound(s, key, value, m.source, m.found, m.now);
    var o := GateOutcomes(s, key, value, m.source, m.found, m.now);
    match o
    case Ignored =>
      UnusedStays(s, s', s.memory, s'.memory);
      UnusedStays(s, s', p, p);
    case Kept(h) =>
      SettleLast(s.redis, s.inflight, Put(key, h));
      RememberStaysUnused(s, s.memory - {key}, key, value, h);
      RememberStaysUnused(s, p, key, value, h);
      UnusedStays(Seen(s, key, value), s', s'.memory, s'.memory);
      UnusedStays(Seen(s, key, value), s', p[key := h], p[key := h]);
    case Matched =>
      var first := s.memory[key].obs;
      SettleLast(s.redis, s.inflight, Del({key}));
      ConfirmStaysUnused(s, s.memory - {key}, key, value, first);
      ConfirmStaysUnused(s, p - {key}, key, value, first);
      ConfirmUsesOnce(s, key, first);
  }

  lemma SweepStaysFaithful(s: Sys, now: int)
    requires Faithful(s) && s.loaded
    ensures Faithful(Apply(s, Sweep(now)))
  {
    var s', p := Apply(s, Sweep(now)), Settle(s.redis, s.inflight);
    MoveStaysSound(s, Sweep(now));
    var gone := Del(s.memory.Keys - Fresh(s.memory, now).Keys);
    SettleLast(s.redis, s.inflight, gone);
    UnusedStays(s, s', s.memory, s'.memory);
    UnusedStays(s, s', p, Executed(p, gone));
  }

  lemma DeliverStaysFaithful(s: Sys)
    requires Faithful(s) && s.inflight != []
    ensures Faithful(Apply(s, Deliver(0)))
  {
    var s', p := Apply(s, Deliver(0)), Settle(s.redis, s.inflight);
    MoveStaysSound(s, Deliver(0));
    SettleFirst(s.redis, s.inflight);
    assert s'.inflight == s.inflight[1..];
    UnusedStays(s, s', s.memory, s.memory);
    UnusedStays(s, s', p, p);
  }

  lemma InstallStaysFaithful(s: Sys, j: nat, now: int)
    requires Faithful(s) && j < |s.snapshots| && !s.loaded
    ensures Faithful(Apply(s, Install(j, now)))
  {
    var s' := Apply(s, Install(j, now));
    MoveStaysSound(s, Install(j, now));
    UnusedStays(s, s', s.snapshots[j], s'.memory);
    UnusedStays(s, s', s.redis, Settle(s'.redis, s'.inflight));
  }

  lemma LapseStaysFaithful(s: Sys)
    requires Faithful(s)
    ensures Faithful(Apply(s, Lapse))
  {
    var s', p := Apply(s, Lapse), Settle(s.redis, s.inflight);
    MoveStaysSound(s, Lapse);
    if s.loaded {
      forall k | k in Settle(map[], s.inflight)
        ensures k in p && p[k] == Settle(map[], s.inflight)[k]
      {
        SettleEmpty(s.redis, s.inflight, k);
      }
      UnusedStays(s, s', p, Settle(map[], s.inflight));
      UnusedStays(s, s', s.memory, s.memory);
    }
  }

  lemma SnapshotStaysFaithful(s: Sys)
    requires Faithful(s)
    ensures Faithful(Apply(s, Snapshot))
  {
    MoveStaysSound(s, Snapshot);
  }

  lemma RestartStaysFaithful(s: Sys)
    requires Faithful(s) && s.inflight == []
    ensures Faithful(Apply(s, Restart))
  {
    MoveStaysSound(s, Restart);
    UnusedStays(s, Apply(s, Restart), s.redis, s.redis);
  }

  lemma MoveStaysFaithful(s: Sys, m: Move)
    requires Faithful(s) && Enabled(s, m) && Disciplined(s, m)
    ensures Faithful(Apply(s, m))
  {
    match m
    case Observe(_, _, _, _, _) => ObserveStaysFaithful(s, m);
    case Sweep(now) => SweepStaysFaithful(s, now);
    case Deliver(_) => DeliverStaysFaithful(s);
    case Install(j, now) =>
      if !s.loaded {
        InstallStaysFaithful(s, j, now);
      }
    case Lapse => LapseStaysFaithful(s);
    case Snapshot => SnapshotStaysFaithful(s);
    case Restart => RestartStaysFaithful(s);
  }

  /** Over every disciplined run, with restarts, a lapsing hash and concurrent cycles: no observation
      backs two publishes. */
  lemma {:induction false} OrderedMirrorNeverReuses(ss: seq<Sys>, ms: seq<Move>, n: nat)
    requires IsRun(ss, ms) && n <= |ms| && Faithful(ss[0])
    requires forall i :: 0 <= i < |ms| ==> Disciplined(ss[i], ms[i])
    ensures Faithful(ss[n]) && UsedOnce(ss[n].pubs)
  {
    if n > 0 {
      OrderedMirrorNeverReuses(ss, ms, n - 1);
      MoveStaysFaithful(ss[n - 1], ms[n - 1]);
    }
  }
}
