/** The two-observation gate under concurrent cycles, with the Redis mirror written outside the
    mutex (internal/reconciler/reconciler.go, internal/reconciler/pending.go). Every locked section
    and every Redis command is one move; moves of different cycles interleave freely. */
module TwoObservations {
  import opened Prices
  import opened PendingMirror

  /** A pending entry and the number of the observation that wrote it. */
  datatype Held = Held(entry: Entry, obs: nat)

  type Table = map<string, Held>

  /** A mirror command sent but not yet executed by Redis. */
  datatype Msg = Put(key: string, held: Held) | Del(keys: set<string>)

  datatype Obs = Obs(key: string, value: real)

  /** A Medium publish and the two observations behind it. */
  datatype Pub = Pub(key: string, first: nat, second: nat)

  /** observations and pubs are the history of the run, not data of the program. */
  datatype Sys = Sys(
    memory: Table, loaded: bool, redis: Table,
    inflight: seq<Msg>, snapshots: seq<Table>,
    observations: seq<Obs>, pubs: seq<Pub>)

  datatype Move =
    | Observe(key: string, value: real, source: string, found: bool, now: int)
    | Sweep(now: int)
    | Deliver(i: nat)
    | Lose(i: nat)
    | Snapshot
    | Install(j: nat, now: int)
    | Lapse
    | Restart

  function Entries(t: Table): Pending {
    map k | k in t :: t[k].entry
  }

  predicate Enabled(s: Sys, m: Move) {
    match m
    case Deliver(i) => i < |s.inflight|
    case Lose(i) => i < |s.inflight|
    case Install(j, _) => j < |s.snapshots|
    case _ => true
  }

  /** The gate's section, with the mirror command it leaves behind. */
  function AfterObserve(s: Sys, key: string, value: real, source: string, found: bool, now: int): Sys {
    var g := Gate(Entries(s.memory), key, value, source, found, now);
    var s' := s.(observations := s.observations + [Obs(key, value)]);
    match g.mirror
    case NoOp => s'
    case Persist(e) =>
      var h := Held(e, |s.observations|);
      s'.(memory := s.memory[key := h], inflight := s.inflight + [Put(key, h)])
    case Remove =>
      s'.(memory := s.memory - {key}, inflight := s.inflight + [Del({key})],
          pubs := if key in s.memory then s.pubs + [Pub(key, s.memory[key].obs, |s.observations|)] else s.pubs)
  }

  function Executed(t: Table, m: Msg): Table {
    match m
    case Put(k, h) => t[k := h]
    case Del(ks) => t - ks
  }

  function Without<T>(s: seq<T>, i: nat): seq<T>
    requires i < |s|
  {
    s[..i] + s[i + 1..]
  }

  function Fresh(t: Table, now: int): Table {
    map k | k in t && !Stale(t[k].entry, now) :: t[k]
  }

  function Apply(s: Sys, m: Move): Sys
    requires Enabled(s, m)
  {
    match m
    case Observe(key, value, source, found, now) => AfterObserve(s, key, value, source, found, now)
    case Sweep(now) =>
      s.(memory := Fresh(s.memory, now), inflight := s.inflight + [Del(s.memory.Keys - Fresh(s.memory, now).Keys)])
    case Deliver(i) => s.(redis := Executed(s.redis, s.inflight[i]), inflight := Without(s.inflight, i))
    case Lose(i) => s.(inflight := Without(s.inflight, i))
    case Snapshot => s.(snapshots := s.snapshots + [s.redis])
    case Install(j, now) =>
      if s.loaded then s
      else s.(memory := Fresh(s.snapshots[j], now) + s.memory, loaded := true)
    case Lapse => s.(redis := map[])
    case Restart => s.(memory := map[], loaded := false, snapshots := [])
  }

  const EMPTY: Sys := Sys(map[], true, map[], [], [], [], [])

  predicate IsRun(ss: seq<Sys>, ms: seq<Move>) {
    && |ss| == |ms| + 1
    && forall i :: 0 <= i < |ms| ==> Enabled(ss[i], ms[i]) && ss[i + 1] == Apply(ss[i], ms[i])
  }

  // ---------------------------------------------------------------- what the other moves do

  /** The entry of t at k, if any. */
  function At(t: Table, k: string): Option<Held> {
    if k in t then Some(t[k]) else None
  }

  /** The entry, unless it was last seen more than 72 hours ago. */
  function IfLately(h: Option<Held>, now: int): Option<Held> {
    if h.Some? && SeenLately(h.value.entry, now) then h else None
  }

  /** A sweep forgets what was not seen within 72 hours and sends the deletion of just that. */
  lemma SweepForgets(s: Sys, now: int)
    ensures var s' := Apply(s, Sweep(now));
            && (forall k :: At(s'.memory, k) == IfLately(At(s.memory, k), now))
            && |s'.inflight| == |s.inflight| + 1 && s.inflight <= s'.inflight
            && s'.inflight[|s.inflight|].Del?
            && (forall k :: k in s'.inflight[|s.inflight|].keys <==> k in s.memory && !SeenLately(s.memory[k].entry, now))
            && s' == s.(memory := s'.memory, inflight := s'.inflight)
  {
  }

  /** The first snapshot to be installed adds its recent entries to memory, where memory has none. */
  lemma InstallAdds(s: Sys, j: nat, now: int)
    requires Enabled(s, Install(j, now))
    ensures var s' := Apply(s, Install(j, now));
            && (s.loaded ==> s' == s)
            && (!s.loaded ==>
                  && s' == s.(memory := s'.memory, loaded := true)
                  && forall k :: At(s'.memory, k) == if k in s.memory then At(s.memory, k) else IfLately(At(s.snapshots[j], k), now))
  {
  }

  lemma WithoutOne<T>(s: seq<T>, i: nat)
    requires i < |s|
    ensures multiset(Without(s, i)) == multiset(s) - multiset{s[i]}
  {
    assert s == s[..i] + [s[i]] + s[i + 1..];
  }

  /** A delivered command writes or deletes its keys in the hash, and is outstanding no more. */
  lemma DeliverWrites(s: Sys, i: nat)
    requires i < |s.inflight|
    ensures var s', m := Apply(s, Deliver(i)), s.inflight[i];
            && (forall k :: At(s'.redis, k) ==
                  if m.Put? && k == m.key then Some(m.held) else if m.Del? && k in m.keys then None else At(s.redis, k))
            && multiset(s'.inflight) == multiset(s.inflight) - multiset{m}
            && s' == s.(redis := s'.redis, inflight := s'.inflight)
  {
    WithoutOne(s.inflight, i);
  }

  /** The hash can lapse as a whole; a restart forgets what the process held, not what it has sent. */
  lemma LapseAndRestart(s: Sys)
    ensures var s' := Apply(s, Lapse); s'.redis == map[] && s' == s.(redis := s'.redis)
    ensures var s' := Apply(s, Restart);
            && s'.memory == map[] && s'.snapshots == [] && !s'.loaded
            && s' == s.(memory := s'.memory, snapshots := s'.snapshots, loaded := s'.loaded)
  {
  }

  // ---------------------------------------------------------------- every interleaving

  /** The entry has been seen exactly once, and is what its observation reported. */
  predicate HeldOk(s: Sys, key: string, h: Held) {
    h.entry.count == 1 && h.obs < |s.observations| && s.observations[h.obs] == Obs(key, h.entry.value)
  }

  predicate TableOk(s: Sys, t: Table) {
    forall k :: k in t ==> HeldOk(s, k, t[k])
  }

  predicate Backed(s: Sys, p: Pub) {
    && p.first < p.second < |s.observations|
    && s.observations[p.first].key == p.key && s.observations[p.second].key == p.key
    && Abs(s.observations[p.first].value - s.observations[p.second].value) < EPSILON
  }

  /** Wherever an entry rests it has count one, and every publish has two close observations. */
  predicate Sound(s: Sys) {
    && TableOk(s, s.memory) && TableOk(s, s.redis)
    && (forall i :: 0 <= i < |s.snapshots| ==> TableOk(s, s.snapshots[i]))
    && (forall i :: 0 <= i < |s.inflight| && s.inflight[i].Put? ==> HeldOk(s, s.inflight[i].key, s.inflight[i].held))
    && (forall i :: 0 <= i < |s.pubs| ==> Backed(s, s.pubs[i]))
  }

  function Seen(s: Sys, key: string, value: real): Sys {
    s.(observations := s.observations + [Obs(key, value)])
  }

  /** The state right after the observation, with its key taken out of memory. */
  function SeenWithout(s: Sys, key: string, value: real): Sys {
    Seen(s, key, value).(memory := s.memory - {key})
  }

  function Remembered(t: Sys, key: string, h: Held): Sys {
    t.(memory := t.memory[key := h], inflight := t.inflight + [Put(key, h)])
  }

  function Confirmed(t: Sys, key: string, first: nat, second: nat): Sys {
    t.(inflight := t.inflight + [Del({key})], pubs := t.pubs + [Pub(key, first, second)])
  }

  datatype Outcome = Ignored | Kept(h: Held) | Matched

  /** The three outcomes of the gate in a sound state. */
  lemma GateOutcomes(s: Sys, key: string, value: real, source: string, found: bool, now: int) returns (o: Outcome)
    requires Sound(s)
    ensures var s', t, n := AfterObserve(s, key, value, source, found, now), SeenWithout(s, key, value), |s.observations|;
            match o
            case Ignored => s' == t
            case Kept(h) => s' == Remembered(t, key, h) && h.obs == n && h.entry.count == 1 && h.entry.value == value
            case Matched =>
              && key in s.memory && Abs(s.memory[key].entry.value - value) < EPSILON
              && s' == Confirmed(t, key, s.memory[key].obs, n)
  {
    var p, t := Entries(s.memory), SeenWithout(s, key, value);
    if key in s.memory {
      assert HeldOk(s, key, s.memory[key]);
      assert p[key] == s.memory[key].entry;
    }
    if key !in s.memory && !found {
      o := Ignored;
      assert t.memory == s.memory;
    } else if key in s.memory && Abs(s.memory[key].entry.value - value) < EPSILON {
      o := Matched;
    } else {
      var h := Held(Entry(value, source, 1, now), |s.observations|);
      o := Kept(h);
      assert t.memory[key := h] == s.memory[key := h];
    }
  }

  lemma SeenStaysSound(s: Sys, key: string, value: real)
    requires Sound(s)
    ensures Sound(SeenWithout(s, key, value))
  {
    var t := SeenWithout(s, key, value);
    forall k, h | HeldOk(s, k, h)
      ensures HeldOk(t, k, h)
    {
    }
    forall p | Backed(s, p)
      ensures Backed(t, p)
    {
    }
  }

  /** A match joins the remembered observation with the new one. */
  lemma MatchIsBacked(s: Sys, key: string, value: real)
    requires Sound(s) && key in s.memory && Abs(s.memory[key].entry.value - value) < EPSILON
    ensures s.memory[key].obs < |s.observations|
    ensures Backed(SeenWithout(s, key, value), Pub(key, s.memory[key].obs, |s.observations|))
  {
    assert HeldOk(s, key, s.memory[key]);
    assert SeenWithout(s, key, value).observations[|s.observations|] == Obs(key, value);
  }

  lemma ObserveStaysSound(s: Sys, key: string, value: real, source: string, found: bool, now: int)
    requires Sound(s)
    ensures Sound(AfterObserve(s, key, value, source, found, now))
  {
    var t := SeenWithout(s, key, value);
    SeenStaysSound(s, key, value);
    var o := GateOutcomes(s, key, value, source, found, now);
    match o
    case Ignored =>
    case Kept(h) =>
      assert t.observations[h.obs] == Obs(key, value);
      RememberStaysSound(t, key, h);
    case Matched =>
      MatchIsBacked(s, key, value);
      ConfirmStaysSound(t, key, s.memory[key].obs, |s.observations|);
  }

  lemma RememberStaysSound(t: Sys, key: string, h: Held)
    requires Sound(t) && HeldOk(t, key, h)
    ensures Sound(Remembered(t, key, h))
  {
    assert forall k, x :: HeldOk(Remembered(t, key, h), k, x) <==> HeldOk(t, k, x);
    assert forall p :: Backed(Remembered(t, key, h), p) <==> Backed(t, p);
  }

  lemma ConfirmStaysSound(t: Sys, key: string, first: nat, second: nat)
    requires Sound(t) && Backed(t, Pub(key, first, second))
    ensures Sound(Confirmed(t, key, first, second))
  {
    var c := Confirmed(t, key, first, second);
    assert forall k, x :: HeldOk(c, k, x) <==> HeldOk(t, k, x);
    assert forall p :: Backed(c, p) <==> Backed(t, p);
  }

  /** Moves that observe nothing only copy, drop or move entries that were sound already. */
  lemma QuietMoveStaysSound(s: Sys, s': Sys)
    requires Sound(s) && s'.observations == s.observations && s'.pubs == s.pubs
    requires TableOk(s, s'.memory) && TableOk(s, s'.redis)
    requires forall i :: 0 <= i < |s'.snapshots| ==> TableOk(s, s'.snapshots[i])
    requires forall i :: 0 <= i < |s'.inflight| && s'.inflight[i].Put? ==> s'.inflight[i] in s.inflight
    ensures Sound(s')
  {
    assert forall k, h :: HeldOk(s', k, h) <==> HeldOk(s, k, h);
    assert forall p :: Backed(s', p) <==> Backed(s, p);
  }

  lemma MoveStaysSound(s: Sys, m: Move)
    requires Sound(s) && Enabled(s, m)
    ensures Sound(Apply(s, m))
  {
    match m
    case Observe(key, value, source, found, now) => ObserveStaysSound(s, key, value, source, found, now);
    case Deliver(i) =>
      assert s.inflight[i].Put? ==> HeldOk(s, s.inflight[i].key, s.inflight[i].held);
      QuietMoveStaysSound(s, Apply(s, m));
    case Install(j, _) =>
      assert TableOk(s, s.snapshots[j]);
      QuietMoveStaysSound(s, Apply(s, m));
    case Lose(_) => QuietMoveStaysSound(s, Apply(s, m));
    case Sweep(_) => QuietMoveStaysSound(s, Apply(s, m));
    case Snapshot => QuietMoveStaysSound(s, Apply(s, m));
    case Lapse => QuietMoveStaysSound(s, Apply(s, m));
    case Restart => QuietMoveStaysSound(s, Apply(s, m));
  }

  /** Over every interleaving, with lost or reordered mirror commands, stale snapshots, an expiring
      hash and restarts anywhere: every Medium publish is backed by two different observations of
      its key less than the tolerance apart, and no entry ever rests with a count other than one. */
  lemma {:induction false} EveryPublishHasTwoObservations(ss: seq<Sys>, ms: seq<Move>, n: nat)
    requires IsRun(ss, ms) && n <= |ms| && Sound(ss[0])
    ensures Sound(ss[n])
  {
    if n > 0 {
      EveryPublishHasTwoObservations(ss, ms, n - 1);
      MoveStaysSound(ss[n - 1], ms[n - 1]);
    }
  }

  // ---------------------------------------------------------------- one process life

  predicate Uses(p: Pub, o: nat) {
    p.first == o || p.second == o
  }

  /** No observation of the key lies strictly between the two, counting from observation `from`. */
  predicate Successive(s: Sys, from: nat, key: string, i: nat, j: nat)
    requires j <= |s.observations|
  {
    forall m :: i < m < j && from <= m ==> s.observations[m].key != key
  }

  /** Since the process was loaded, at observation `from` and publish `done`: entries are the latest
      word on their key, publishes join successive observations, and none is used twice. */
  predicate Fair(s: Sys, from: nat, done: nat) {
    && s.loaded && from <= |s.observations| && done <= |s.pubs| && Sound(s)
    && (forall k :: k in s.memory ==> Successive(s, from, k, s.memory[k].obs, |s.observations|))
    && (forall k, i :: k in s.memory && done <= i < |s.pubs| ==> !Uses(s.pubs[i], s.memory[k].obs))
    && (forall i :: done <= i < |s.pubs| ==>
          s.pubs[i].second < |s.observations| && from <= s.pubs[i].second
          && Successive(s, from, s.pubs[i].key, s.pubs[i].first, s.pubs[i].second))
    && (forall i, j :: done <= i < j < |s.pubs| ==>
          !Uses(s.pubs[j], s.pubs[i].first) && !Uses(s.pubs[j], s.pubs[i].second))
  }

  lemma SeenStaysFair(s: Sys, key: string, value: real, from: nat, done: nat)
    requires Fair(s, from, done)
    ensures Fair(SeenWithout(s, key, value), from, done)
  {
    var t, n := SeenWithout(s, key, value), |s.observations|;
    SeenStaysSound(s, key, value);
    assert forall m :: 0 <= m < n ==> t.observations[m] == s.observations[m];
    forall k | k in t.memory
      ensures Successive(t, from, k, t.memory[k].obs, n + 1)
    {
      assert Successive(s, from, k, s.memory[k].obs, n);
    }
    forall i | done <= i < |s.pubs|
      ensures Successive(t, from, s.pubs[i].key, s.pubs[i].first, s.pubs[i].second)
    {
      assert Successive(s, from, s.pubs[i].key, s.pubs[i].first, s.pubs[i].second);
    }
  }

  lemma RememberStaysFair(t: Sys, key: string, h: Held, from: nat, done: nat)
    requires Fair(t, from, done) && HeldOk(t, key, h) && h.obs == |t.observations| - 1
    requires forall i :: done <= i < |t.pubs| ==> !Uses(t.pubs[i], h.obs)
    ensures Fair(Remembered(t, key, h), from, done)
  {
    var r := Remembered(t, key, h);
    RememberStaysSound(t, key, h);
    forall k | k in r.memory
      ensures Successive(r, from, k, r.memory[k].obs, |r.observations|)
    {
      assert k != key ==> Successive(t, from, k, t.memory[k].obs, |t.observations|);
    }
    forall i | done <= i < |t.pubs|
      ensures Successive(r, from, t.pubs[i].key, t.pubs[i].first, t.pubs[i].second)
    {
      assert Successive(t, from, t.pubs[i].key, t.pubs[i].first, t.pubs[i].second);
    }
  }

  /** The new publish shares no observation with an entry still held. */
  lemma HeldIsUnused(t: Sys, key: string, first: nat, second: nat, k: string)
    requires Sound(t) && key !in t.memory && k in t.memory && Backed(t, Pub(key, first, second))
    ensures !Uses(Pub(key, first, second), t.memory[k].obs)
  {
    assert HeldOk(t, k, t.memory[k]);
  }

  lemma ConfirmStaysFair(t: Sys, key: string, first: nat, second: nat, from: nat, done: nat)
    requires Fair(t, from, done) && key !in t.memory && Backed(t, Pub(key, first, second))
    requires from <= second && Successive(t, from, key, first, second)
    requires forall i :: done <= i < |t.pubs| ==> !Uses(t.pubs[i], first) && !Uses(t.pubs[i], second)
    ensures Fair(Confirmed(t, key, first, second), from, done)
  {
    var c := Confirmed(t, key, first, second);
    ConfirmStaysSound(t, key, first, second);
    forall k | k in t.memory
      ensures Successive(c, from, k, t.memory[k].obs, |c.observations|)
      ensures !Uses(Pub(key, first, second), t.memory[k].obs)
    {
      assert Successive(t, from, k, t.memory[k].obs, |t.observations|);
      HeldIsUnused(t, key, first, second, k);
    }
    forall i | done <= i < |c.pubs|
      ensures Successive(c, from, c.pubs[i].key, c.pubs[i].first, c.pubs[i].second)
    {
      assert i < |t.pubs| ==> Successive(t, from, t.pubs[i].key, t.pubs[i].first, t.pubs[i].second);
    }
  }

  lemma MatchIsFair(s: Sys, key: string, value: real, from: nat, done: nat)
    requires Fair(s, from, done) && key in s.memory && s.memory[key].obs < |s.observations|
    ensures var t := SeenWithout(s, key, value);
            && Successive(t, from, key, s.memory[key].obs, |s.observations|)
            && forall i :: done <= i < |t.pubs| ==>
                 !Uses(t.pubs[i], s.memory[key].obs) && !Uses(t.pubs[i], |s.observations|)
  {
    var t := SeenWithout(s, key, value);
    assert Successive(s, from, key, s.memory[key].obs, |s.observations|);
    assert forall m :: 0 <= m < |s.observations| ==> t.observations[m] == s.observations[m];
    assert forall i :: 0 <= i < |s.pubs| ==> Backed(s, s.pubs[i]);
  }

  lemma ObserveStaysFair(s: Sys, key: string, value: real, source: string, found: bool, now: int, from: nat, done: nat)
    requires Fair(s, from, done)
    ensures Fair(AfterObserve(s, key, value, source, found, now), from, done)
  {
    var t := SeenWithout(s, key, value);
    SeenStaysFair(s, key, value, from, done);
    var o := GateOutcomes(s, key, value, source, found, now);
    match o
    case Ignored =>
    case Kept(h) =>
      assert t.observations[h.obs] == Obs(key, value);
      assert forall i :: 0 <= i < |s.pubs| ==> Backed(s, s.pubs[i]);
      RememberStaysFair(t, key, h, from, done);
    case Matched =>
      MatchIsBacked(s, key, value);
      MatchIsFair(s, key, value, from, done);
      ConfirmStaysFair(t, key, s.memory[key].obs, |s.observations|, from, done);
  }

  /** A process that has loaded the hash is fair; before that it holds and publishes nothing. */
  predicate LifeOk(s: Sys, from: nat, done: nat) {
    if s.loaded then Fair(s, from, done)
    else s.memory == map[] && |s.observations| == from && |s.pubs| == done && Sound(s)
  }

  /** In one process life whose observations all come after hydration, over every interleaving of
      concurrent cycles and of mirror commands, lost or reordered: each Medium publish joins two
      successive observations of its key, and no observation backs two publishes. */
  lemma {:induction false} GateIsFair(ss: seq<Sys>, ms: seq<Move>, n: nat)
    requires IsRun(ss, ms) && n <= |ms|
    requires Sound(ss[0]) && (ss[0].loaded || ss[0].memory == map[])
    requires forall i :: 0 <= i < |ms| ==> ms[i] != Restart && (ms[i].Observe? ==> ss[i].loaded)
    ensures LifeOk(ss[n], |ss[0].observations|, |ss[0].pubs|)
  {
    if n > 0 {
      GateIsFair(ss, ms, n - 1);
      var s, m := ss[n - 1], ms[n - 1];
      assert Enabled(s, m) && m != Restart && (m.Observe? ==> s.loaded) && ss[n] == Apply(s, m);
      MoveStaysFair(s, m, |ss[0].observations|, |ss[0].pubs|);
    }
  }

  lemma MoveStaysFair(s: Sys, m: Move, from: nat, done: nat)
    requires LifeOk(s, from, done) && Enabled(s, m) && m != Restart && (m.Observe? ==> s.loaded)
    ensures LifeOk(Apply(s, m), from, done)
  {
    MoveStaysSound(s, m);
    if m.Observe? {
      ObserveStaysFair(s, m.key, m.value, m.source, m.found, m.now, from, done);
    } else if s.loaded {
      OtherMovesStayFair(s, m, from, done);
    } else {
      HydrationIsFair(s, m, from, done);
    }
  }

  /** Whatever the hash holds was observed before this life began. */
  lemma HydrationIsFair(s: Sys, m: Move, from: nat, done: nat)
    requires LifeOk(s, from, done) && !s.loaded && Enabled(s, m) && !m.Observe? && Sound(Apply(s, m))
    ensures LifeOk(Apply(s, m), from, done)
  {
    var s' := Apply(s, m);
    forall k | k in s'.memory
      ensures s'.memory[k].obs < from
    {
      assert HeldOk(s', k, s'.memory[k]);
    }
  }

  lemma OtherMovesStayFair(s: Sys, m: Move, from: nat, done: nat)
    requires Fair(s, from, done) && Enabled(s, m) && !m.Observe? && m != Restart && Sound(Apply(s, m))
    ensures Fair(Apply(s, m), from, done)
  {
    var s' := Apply(s, m);
    assert s'.observations == s.observations && s'.pubs == s.pubs;
    assert forall k :: k in s'.memory ==> k in s.memory && s'.memory[k] == s.memory[k];
    assert forall k :: k in s.memory ==> Successive(s, from, k, s.memory[k].obs, |s.observations|);
  }

  // ---------------------------------------------------------------- across a restart

  lemma FirstSight(s: Sys, key: string, v: real, t: int)
    requires key !in s.memory
    ensures AfterObserve(s, key, v, "", true, t) ==
            Remembered(Seen(s, key, v), key, Held(Entry(v, "", 1, t), |s.observations|))
  {
  }

  lemma SecondSight(s: Sys, key: string, v: real, t: int)
    requires key in s.memory && s.memory[key].entry.value == v && s.memory[key].entry.count == 1
    ensures AfterObserve(s, key, v, "", true, t) ==
            Confirmed(SeenWithout(s, key, v), key, s.memory[key].obs, |s.observations|)
  {
    assert Entries(s.memory)[key] == s.memory[key].entry;
  }

  /** Two overlapping cycles observe the same value; their commands are both still in flight. */
  lemma Overlap(key: string, v: real) returns (s1: Sys, s2: Sys)
    ensures s1 == Apply(EMPTY, Observe(key, v, "", true, 1)) && s2 == Apply(s1, Observe(key, v, "", true, 2))
    ensures var h, o := Held(Entry(v, "", 1, 1), 0), Obs(key, v);
            s2 == Sys(map[], true, map[], [Put(key, h), Del({key})], [], [o, o], [Pub(key, 0, 1)])
  {
    FirstSight(EMPTY, key, v, 1);
    s1 := Remembered(Seen(EMPTY, key, v), key, Held(Entry(v, "", 1, 1), 0));
    SecondSight(s1, key, v, 2);
    s2 := Confirmed(SeenWithout(s1, key, v), key, 0, 1);
    assert s2.memory == map[];
  }

  /** Redis executes the two commands in the other order. */
  lemma Reorder(key: string, s2: Sys) returns (s3: Sys, s4: Sys)
    requires |s2.inflight| == 2 && s2.inflight[0].Put? && s2.inflight[0].key == key
    requires s2.inflight[1] == Del({key}) && s2.redis == map[]
    ensures s3 == Apply(s2, Deliver(1)) && Enabled(s3, Deliver(0)) && s4 == Apply(s3, Deliver(0))
    ensures s4 == s2.(inflight := [], redis := map[key := s2.inflight[0].held])
  {
    s3 := Apply(s2, Deliver(1));
    assert s3.redis == map[];
    s4 := Apply(s3, Deliver(0));
  }

  lemma Extend(ss: seq<Sys>, ms: seq<Move>, m: Move) returns (ss': seq<Sys>, ms': seq<Move>)
    requires IsRun(ss, ms) && Enabled(ss[|ms|], m)
    ensures IsRun(ss', ms') && ms' == ms + [m] && ss'[0] == ss[0] && ss'[|ms'|] == Apply(ss[|ms|], m)
  {
    ss', ms' := ss + [Apply(ss[|ms|], m)], ms + [m];
  }

  /** One publish, and its consumed entry left behind in Redis. */
  lemma OverlapAndReorder(key: string, v: real) returns (ss: seq<Sys>, ms: seq<Move>)
    ensures IsRun(ss, ms) && ss[0] == EMPTY
    ensures ss[|ms|] == Sys(map[], true, map[key := Held(Entry(v, "", 1, 1), 0)], [], [],
                            [Obs(key, v), Obs(key, v)], [Pub(key, 0, 1)])
  {
    var s1, s2 := Overlap(key, v);
    var s3, s4 := Reorder(key, s2);
    ss, ms := Extend([EMPTY], [], Observe(key, v, "", true, 1));
    ss, ms := Extend(ss, ms, Observe(key, v, "", true, 2));
    ss, ms := Extend(ss, ms, Deliver(1));
    ss, ms := Extend(ss, ms, Deliver(0));
  }

  /** A restart after that reloads the consumed entry, and the first observation backs a second publish. */
  lemma ReorderedMirrorReusesObservation(key: string, v: real) returns (ss: seq<Sys>, ms: seq<Move>)
    ensures IsRun(ss, ms) && ss[0] == EMPTY
    ensures ss[|ms|].pubs == [Pub(key, 0, 1), Pub(key, 0, 2)]
  {
    ss, ms := OverlapAndReorder(key, v);
    var left := ss[|ms|].redis;
    ss, ms := Extend(ss, ms, Restart);
    ss, ms := Extend(ss, ms, Snapshot);
    ss, ms := Extend(ss, ms, Install(0, 3));
    assert ss[|ms|].memory == left;
    SecondSight(ss[|ms|], key, v, 4);
    ss, ms := Extend(ss, ms, Observe(key, v, "", true, 4));
  }

  // ---------------------------------------------------------------- before hydration

  /** A process as it starts. */
  const UNLOADED: Sys := Sys(map[], false, map[], [], [], [], [])

  /** A cycle whose HGETALL failed goes on and remembers; another cycle then reads the hash. */
  lemma UnhydratedSight(key: string, v: real) returns (ss: seq<Sys>, ms: seq<Move>)
    ensures IsRun(ss, ms) && ss[0] == UNLOADED && forall i :: 0 <= i < |ms| ==> InOrder(ms[i])
    ensures var t := map[key := Held(Entry(v, "", 1, 1), 0)];
            ss[|ms|] == Sys(t, false, t, [], [t], [Obs(key, v)], [])
  {
    FirstSight(UNLOADED, key, v, 1);
    var h := Held(Entry(v, "", 1, 1), 0);
    ss, ms := Extend([UNLOADED], [], Observe(key, v, "", true, 1));
    assert ss[|ms|] == Sys(map[key := h], false, map[], [Put(key, h)], [], [Obs(key, v)], []);
    ss, ms := Extend(ss, ms, Deliver(0));
    ss, ms := Extend(ss, ms, Snapshot);
  }

  /** The next one publishes; the hash that another cycle read in between
      still holds the consumed entry. */
  lemma UnhydratedPublish(key: string, v: real) returns (ss: seq<Sys>, ms: seq<Move>)
    ensures IsRun(ss, ms) && ss[0] == UNLOADED && forall i :: 0 <= i < |ms| ==> InOrder(ms[i])
    ensures var h, o := Held(Entry(v, "", 1, 1), 0), Obs(key, v);
            ss[|ms|] == Sys(map[], false, map[], [], [map[key := h]], [o, o], [Pub(key, 0, 1)])
  {
    ss, ms := UnhydratedSight(key, v);
    var t := ss[|ms|].memory;
    SecondSight(ss[|ms|], key, v, 2);
    ss, ms := Extend(ss, ms, Observe(key, v, "", true, 2));
    assert t - {key} == map[];
    assert ss[|ms|] == Sys(map[], false, t, [Del({key})], [t], [Obs(key, v), Obs(key, v)], [Pub(key, 0, 1)]);
    ss, ms := Extend(ss, ms, Deliver(0));
  }

  /** No restart, no lost command, and commands run in the order they were issued. */
  predicate InOrder(m: Move) {
    m != Restart && !m.Lose? && (m.Deliver? ==> m.i == 0)
  }

  /** Fairness needs hydration first: in one process life, with every command run in order, an entry
      loaded late brings a consumed observation back, and it backs a second publish. */
  lemma UnhydratedCycleReusesObservation(key: string, v: real) returns (ss: seq<Sys>, ms: seq<Move>)
    ensures IsRun(ss, ms) && ss[0] == UNLOADED && forall i :: 0 <= i < |ms| ==> InOrder(ms[i])
    ensures ss[|ms|].pubs == [Pub(key, 0, 1), Pub(key, 0, 2)]
  {
    ss, ms := UnhydratedPublish(key, v);
    var left := ss[|ms|].snapshots[0];
    ss, ms := Extend(ss, ms, Install(0, 3));
    assert ss[|ms|].memory == left;
    SecondSight(ss[|ms|], key, v, 4);
    ss, ms := Extend(ss, ms, Observe(key, v, "", true, 4));
  }
}
