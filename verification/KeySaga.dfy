/** Issuing and regenerating API keys across two stores, the key provider and the registry table
    (internal/auth/handlers.go, internal/signup/store.go). Each handler is a program counter over
    atomic steps; handlers interleave freely, and any step may fail or be a handler's last. */
module KeySaga {
  import opened Prices

  type KeyId = nat

  datatype Status = Active | Revoked

  datatype KeyRow = KeyRow(identity: string, status: Status)

  datatype Reply = Issued(key: KeyId) | Existing | Refused

  datatype Pc =
    | Reading
    | Creating(prior: Option<KeyId>)
    | Storing(prior: Option<KeyId>, key: KeyId)
    | Compensating(key: KeyId)
    | RevokingOld(retired: KeyId, key: KeyId)
    | Finished(reply: Reply)

  datatype Handler = Handler(identity: string, regenerate: bool, pc: Pc)

  /** registry is api_keys_registry, live the keys the provider accepts, owner and next what the
      provider knows about the keys it created. clean says that so far nothing was lost: no stopped
      handler, no failed revocation, no creation whose answer never arrived. */
  datatype Sys = Sys(
    registry: map<KeyId, KeyRow>, live: set<KeyId>, owner: map<KeyId, string>, next: KeyId,
    handlers: map<nat, Handler>, clean: bool)

  datatype Move =
    | Arrive(h: nat, identity: string, regenerate: bool)
    | Read(h: nat)
    | ReadFails(h: nat)
    | Create(h: nat)
    | CreateFails(h: nat)
    | CreateLost(h: nat)
    | Store(h: nat)
    | StoreFails(h: nat)
    | StoreLost(h: nat)
    | Compensate(h: nat)
    | CompensateFails(h: nat)
    | RevokeOld(h: nat)
    | RevokeOldFails(h: nat)
    | Stop(h: nat)

  function ActiveKeys(s: Sys, identity: string): set<KeyId> {
    set k | k in s.registry && s.registry[k] == KeyRow(identity, Active)
  }

  predicate IsActive(s: Sys, k: KeyId) {
    k in s.registry && s.registry[k].status == Active
  }

  predicate Enabled(s: Sys, m: Move) {
    match m
    case Arrive(h, _, _) => h !in s.handlers
    case Read(h) => h in s.handlers && s.handlers[h].pc.Reading?
    case ReadFails(h) => h in s.handlers && s.handlers[h].pc.Reading?
    case Create(h) => h in s.handlers && s.handlers[h].pc.Creating?
    case CreateFails(h) => h in s.handlers && s.handlers[h].pc.Creating?
    case CreateLost(h) => h in s.handlers && s.handlers[h].pc.Creating?
    case Store(h) => h in s.handlers && s.handlers[h].pc.Storing?
    case StoreFails(h) => h in s.handlers && s.handlers[h].pc.Storing?
    case StoreLost(h) => h in s.handlers && s.handlers[h].pc.Storing?
    case Compensate(h) => h in s.handlers && s.handlers[h].pc.Compensating?
    case CompensateFails(h) => h in s.handlers && s.handlers[h].pc.Compensating?
    case RevokeOld(h) => h in s.handlers && s.handlers[h].pc.RevokingOld?
    case RevokeOldFails(h) => h in s.handlers && s.handlers[h].pc.RevokingOld?
    case Stop(h) => h in s.handlers
  }

  function Goto(s: Sys, h: nat, pc: Pc): Sys
    requires h in s.handlers
  {
    s.(handlers := s.handlers[h := s.handlers[h].(pc := pc)])
  }

  /** GetActiveKey, and what each handler does with the answer. */
  ghost function AfterRead(s: Sys, h: nat): Sys
    requires h in s.handlers
  {
    var a := ActiveKeys(s, s.handlers[h].identity);
    if a == {} then Goto(s, h, Creating(None))
    else if s.handlers[h].regenerate then
      Goto(s, h, Creating(Some(TheKey(a))))
    else Goto(s, h, Finished(Existing))
  }

  /** The row the query returns; the partial unique index allows only one. */
  ghost function TheKey(a: set<KeyId>): KeyId
    requires a != {}
  {
    var k :| k in a;
    k
  }

  function Created(s: Sys, h: nat): Sys
    requires h in s.handlers
  {
    s.(live := s.live + {s.next}, owner := s.owner[s.next := s.handlers[h].identity], next := s.next + 1)
  }

  /** The registry after the conditional revocation of the old key. */
  function OldRevoked(registry: map<KeyId, KeyRow>, identity: string, prior: Option<KeyId>): map<KeyId, KeyRow> {
    if prior.Some? && prior.value in registry && registry[prior.value] == KeyRow(identity, Active)
    then registry[prior.value := KeyRow(identity, Revoked)]
    else registry
  }

  /** InsertKey or RevokeAndInsertKey; a duplicate active key rolls everything back. */
  function Committed(s: Sys, h: nat): Option<map<KeyId, KeyRow>>
    requires h in s.handlers && s.handlers[h].pc.Storing?
  {
    var i, pc := s.handlers[h].identity, s.handlers[h].pc;
    var r := OldRevoked(s.registry, i, pc.prior);
    if exists k :: k in r && r[k] == KeyRow(i, Active) then None
    else Some(r[pc.key := KeyRow(i, Active)])
  }

  function AfterStore(s: Sys, h: nat): Sys
    requires h in s.handlers && s.handlers[h].pc.Storing?
  {
    var pc := s.handlers[h].pc;
    match Committed(s, h)
    case None => Goto(s, h, Compensating(pc.key))
    case Some(r) =>
      Goto(s.(registry := r), h,
           if pc.prior.Some? then RevokingOld(pc.prior.value, pc.key) else Finished(Issued(pc.key)))
  }

  ghost function Apply(s: Sys, m: Move): Sys
    requires Enabled(s, m)
  {
    match m
    case Arrive(h, i, regen) => s.(handlers := s.handlers[h := Handler(i, regen, Reading)])
    case Read(h) => AfterRead(s, h)
    case ReadFails(h) => Goto(s, h, Finished(Refused))
    case Create(h) => Goto(Created(s, h), h, Storing(s.handlers[h].pc.prior, s.next))
    case CreateFails(h) => Goto(s, h, Finished(Refused))
    case CreateLost(h) => Goto(Created(s, h), h, Finished(Refused)).(clean := false)
    case Store(h) => AfterStore(s, h)
    case StoreFails(h) => Goto(s, h, Compensating(s.handlers[h].pc.key))
    case StoreLost(h) =>
      Goto(if Committed(s, h).Some? then s.(registry := Committed(s, h).value) else s,
           h, Compensating(s.handlers[h].pc.key))
    case Compensate(h) => Goto(s.(live := s.live - {s.handlers[h].pc.key}), h, Finished(Refused))
    case CompensateFails(h) => Goto(s, h, Finished(Refused)).(clean := false)
    case RevokeOld(h) => Goto(s.(live := s.live - {s.handlers[h].pc.retired}), h, Finished(Issued(s.handlers[h].pc.key)))
    case RevokeOldFails(h) => Goto(s, h, Finished(Issued(s.handlers[h].pc.key))).(clean := false)
    case Stop(h) => s.(handlers := s.handlers - {h}, clean := false)
  }

  ghost predicate IsRun(ss: seq<Sys>, ms: seq<Move>) {
    && |ss| == |ms| + 1
    && forall i :: 0 <= i < |ms| ==> Enabled(ss[i], ms[i]) && ss[i + 1] == Apply(ss[i], ms[i])
  }

  const START: Sys := Sys(map[], {}, map[], 0, map[], true)

  // ---------------------------------------------------------------- the invariant

  /** The key a handler has created and not yet registered. */
  predicate Holds(x: Handler, k: KeyId) {
    (x.pc.Storing? || x.pc.Compensating?) && x.pc.key == k
  }

  predicate HandlerOk(s: Sys, x: Handler) {
    match x.pc
    case Reading => true
    case Creating(p) => p.Some? ==> p.value in s.registry && s.registry[p.value].identity == x.identity
    case Storing(p, k) =>
      && (p.Some? ==> p.value in s.registry && s.registry[p.value].identity == x.identity)
      && k < s.next && k !in s.registry && k in s.live && k in s.owner && s.owner[k] == x.identity
    case Compensating(k) => k < s.next && k !in s.registry
    case RevokingOld(p, k) =>
      && p in s.registry && s.registry[p].status == Revoked
      && k in s.registry && s.registry[k].identity == x.identity
    case Finished(r) => r.Issued? ==> r.key in s.registry && s.registry[r.key].identity == x.identity
  }

  ghost predicate OneEach(s: Sys) {
    forall j, k :: IsActive(s, j) && IsActive(s, k) && s.registry[j].identity == s.registry[k].identity ==> j == k
  }

  ghost predicate TablesOk(s: Sys) {
    && (forall k: KeyId :: k in s.owner <==> k < s.next)
    && (forall k: KeyId :: k in s.registry ==> k in s.owner && s.owner[k] == s.registry[k].identity)
    && (forall k :: k in s.live ==> k < s.next)
    && OneEach(s)
    && (forall k :: IsActive(s, k) ==> k in s.live)
  }

  /** Every handler is where its keys say, and no two hold the same key. */
  ghost predicate HandlersOk(s: Sys) {
    && (forall h :: h in s.handlers ==> HandlerOk(s, s.handlers[h]))
    && (forall g, h, k :: g in s.handlers && h in s.handlers && Holds(s.handlers[g], k) && Holds(s.handlers[h], k) ==> g == h)
  }

  ghost predicate Sound(s: Sys) {
    TablesOk(s) && HandlersOk(s)
  }

  lemma ReadStaysSound(s: Sys, h: nat)
    requires Sound(s) && Enabled(s, Read(h))
    ensures Sound(AfterRead(s, h))
  {
    var s', a := AfterRead(s, h), ActiveKeys(s, s.handlers[h].identity);
    if a != {} {
      assert TheKey(a) in a;
    }
    assert s.live - {} == s.live;
    LocalMoveStaysSound(s, s', h, {});
  }

  lemma CreateStaysSound(s: Sys, h: nat, m: Move)
    requires Sound(s) && Enabled(s, m) && m.h == h && (m.Create? || m.CreateLost?)
    ensures Sound(Apply(s, m))
  {
    var s' := Apply(s, m);
    assert forall k :: IsActive(s', k) <==> IsActive(s, k);
    forall g | g in s.handlers
      ensures HandlerOk(s', s'.handlers[g])
      ensures g != h ==> !Holds(s.handlers[g], s.next)
      ensures forall k :: Holds(s'.handlers[g], k) ==> (if g == h then k == s.next else Holds(s.handlers[g], k))
    {
      assert HandlerOk(s, s.handlers[g]);
    }
  }

  /** What a commit changes: the new key becomes active, and of the others only the prior key's
      status may change, from active to revoked. */
  lemma CommitEffect(s: Sys, h: nat)
    requires Sound(s) && h in s.handlers && s.handlers[h].pc.Storing? && Committed(s, h).Some?
    ensures var r, x := Committed(s, h).value, s.handlers[h];
            && r.Keys == s.registry.Keys + {x.pc.key} && x.pc.key !in s.registry
            && r[x.pc.key] == KeyRow(x.identity, Active)
            && (forall k :: k in s.registry ==>
                  r[k].identity == s.registry[k].identity
                  && (r[k] != s.registry[k] ==> x.pc.prior == Some(k) && r[k].status == Revoked))
            && (forall k :: k in s.registry && s.registry[k].identity == x.identity ==> r[k].status == Revoked)
            && (x.pc.prior.Some? ==> x.pc.prior.value in s.registry && r[x.pc.prior.value].status == Revoked)
  {
    assert HandlerOk(s, s.handlers[h]);
    var r := OldRevoked(s.registry, s.handlers[h].identity, s.handlers[h].pc.prior);
    assert forall k :: k in s.registry ==> k in r;
  }

  lemma CommitKeepsHandlers(s: Sys, h: nat, g: nat)
    requires Sound(s) && h in s.handlers && s.handlers[h].pc.Storing? && Committed(s, h).Some?
    requires g in s.handlers
    ensures HandlerOk(AfterStore(s, h), AfterStore(s, h).handlers[g])
  {
    var x := s.handlers[h];
    CommitEffect(s, h);
    assert HandlerOk(s, x) && HandlerOk(s, s.handlers[g]);
    assert Holds(x, x.pc.key);
    assert g != h ==> !Holds(s.handlers[g], x.pc.key);
  }

  lemma CommitKeepsActives(s: Sys, h: nat, k: KeyId)
    requires Sound(s) && h in s.handlers && s.handlers[h].pc.Storing? && Committed(s, h).Some?
    requires IsActive(AfterStore(s, h), k)
    ensures k in s.live
    ensures k != s.handlers[h].pc.key ==>
              IsActive(s, k) && s.registry[k].identity == AfterStore(s, h).registry[k].identity != s.handlers[h].identity
  {
    CommitEffect(s, h);
    assert HandlerOk(s, s.handlers[h]);
  }

  lemma CommitStaysSound(s: Sys, h: nat)
    requires Sound(s) && h in s.handlers && s.handlers[h].pc.Storing? && Committed(s, h).Some?
    ensures Sound(AfterStore(s, h))
  {
    var s' := AfterStore(s, h);
    forall g | g in s.handlers
      ensures HandlerOk(s', s'.handlers[g])
    {
      CommitKeepsHandlers(s, h, g);
    }
    CommitKeepsTables(s, h);
  }

  lemma CommitKeepsTables(s: Sys, h: nat)
    requires Sound(s) && h in s.handlers && s.handlers[h].pc.Storing? && Committed(s, h).Some?
    ensures TablesOk(AfterStore(s, h))
  {
    var s' := AfterStore(s, h);
    CommitEffect(s, h);
    assert HandlerOk(s, s.handlers[h]);
    forall k | IsActive(s', k)
      ensures k in s'.live
      ensures k != s.handlers[h].pc.key ==>
                IsActive(s, k) && s.registry[k].identity == s'.registry[k].identity != s.handlers[h].identity
    {
      CommitKeepsActives(s, h, k);
    }
  }

  /** Moves of one handler that leave the registry alone; `gone` are the keys it revokes. */
  lemma LocalMoveStaysSound(s: Sys, s': Sys, h: nat, gone: set<KeyId>)
    requires Sound(s) && h in s.handlers
    requires s'.registry == s.registry && s'.owner == s.owner && s'.next == s.next && s'.live == s.live - gone
    requires s'.handlers.Keys <= s.handlers.Keys
    requires forall g :: g in s'.handlers && g != h ==> s'.handlers[g] == s.handlers[g]
    requires h in s'.handlers ==> HandlerOk(s', s'.handlers[h])
    requires h in s'.handlers ==> forall k :: Holds(s'.handlers[h], k) ==> Holds(s.handlers[h], k)
    requires forall k :: k in gone ==> !IsActive(s, k)
    requires forall k, g :: k in gone && g in s.handlers && g != h ==> !Holds(s.handlers[g], k)
    ensures Sound(s')
  {
    assert forall k :: IsActive(s', k) <==> IsActive(s, k);
    forall g | g in s'.handlers && g != h
      ensures HandlerOk(s', s'.handlers[g])
    {
      assert HandlerOk(s, s.handlers[g]);
      if s.handlers[g].pc.Storing? {
        assert Holds(s.handlers[g], s.handlers[g].pc.key);
      }
    }
  }

  lemma HandlerMoveStaysSound(s: Sys, m: Move)
    requires Sound(s) && Enabled(s, m) && !m.Arrive? && !m.Read? && !m.Create? && !m.CreateLost? && !m.Store? && !m.StoreLost?
    ensures Sound(Apply(s, m))
  {
    var s', h := Apply(s, m), m.h;
    var x := s.handlers[h];
    assert HandlerOk(s, x);
    if m.Compensate? {
      assert Holds(x, x.pc.key);
      LocalMoveStaysSound(s, s', h, {x.pc.key});
    } else if m.RevokeOld? {
      forall g | g in s.handlers
        ensures !Holds(s.handlers[g], x.pc.retired)
      {
        assert HandlerOk(s, s.handlers[g]);
      }
      LocalMoveStaysSound(s, s', h, {x.pc.retired});
    } else {
      assert s.live - {} == s.live;
      LocalMoveStaysSound(s, s', h, {});
    }
  }

  lemma ArriveStaysSound(s: Sys, m: Move)
    requires Sound(s) && Enabled(s, m) && m.Arrive?
    ensures Sound(Apply(s, m))
  {
    var s' := Apply(s, m);
    assert forall k :: IsActive(s', k) <==> IsActive(s, k);
    forall g | g in s.handlers
      ensures HandlerOk(s', s'.handlers[g])
    {
      assert HandlerOk(s, s.handlers[g]);
    }
  }

  lemma StoreStaysSound(s: Sys, h: nat)
    requires Sound(s) && h in s.handlers && s.handlers[h].pc.Storing?
    ensures Sound(AfterStore(s, h))
  {
    if Committed(s, h).Some? {
      CommitStaysSound(s, h);
    } else {
      assert HandlerOk(s, s.handlers[h]);
      assert s.live - {} == s.live;
      LocalMoveStaysSound(s, AfterStore(s, h), h, {});
    }
  }

  lemma MoveStaysSound(s: Sys, m: Move)
    requires Sound(s) && Enabled(s, m) && !m.StoreLost?
    ensures Sound(Apply(s, m))
  {
    match m
    case Arrive(_, _, _) => ArriveStaysSound(s, m);
    case Read(h) => ReadStaysSound(s, h);
    case Create(h) => CreateStaysSound(s, h, m);
    case CreateLost(h) => CreateStaysSound(s, h, m);
    case Store(h) => StoreStaysSound(s, h);
    case _ => HandlerMoveStaysSound(s, m);
  }

  /** No interleaving, failure or stopped handler ever lets a compensation or a late revocation kill
      a key the registry calls active, or gives an identity two active keys. */
  lemma {:induction false} ActiveKeysAreLive(ss: seq<Sys>, ms: seq<Move>, n: nat)
    requires IsRun(ss, ms) && n <= |ms| && Sound(ss[0])
    requires forall i :: 0 <= i < |ms| ==> !ms[i].StoreLost?
    ensures Sound(ss[n])
    ensures forall k :: IsActive(ss[n], k) ==> k in ss[n].live
    ensures OneEach(ss[n])
  {
    if n > 0 {
      ActiveKeysAreLive(ss, ms, n - 1);
      MoveStaysSound(ss[n - 1], ms[n - 1]);
    }
  }

  // ---------------------------------------------------------------- never without a key again

  lemma MoveKeepsSomeKey(s: Sys, m: Move, i: string)
    requires Sound(s) && Enabled(s, m) && !m.StoreLost? && ActiveKeys(s, i) != {}
    ensures ActiveKeys(Apply(s, m), i) != {}
  {
    var k :| k in ActiveKeys(s, i);
    if m.Store? && Committed(s, m.h).Some? {
      CommitEffect(s, m.h);
      var x := s.handlers[m.h];
      assert (if i == x.identity then x.pc.key else k) in ActiveKeys(Apply(s, m), i);
    } else {
      assert Apply(s, m).registry == s.registry;
      assert k in ActiveKeys(Apply(s, m), i);
    }
  }

  /** An identity that has an active key has exactly one in every later state. */
  lemma {:induction false} KeyIsNeverLost(ss: seq<Sys>, ms: seq<Move>, m: nat, n: nat, i: string)
    requires IsRun(ss, ms) && m <= n <= |ms| && Sound(ss[0])
    requires forall i :: 0 <= i < |ms| ==> !ms[i].StoreLost?
    requires ActiveKeys(ss[m], i) != {}
    ensures exists k :: ActiveKeys(ss[n], i) == {k}
  {
    if m < n {
      KeyIsNeverLost(ss, ms, m, n - 1, i);
      ActiveKeysAreLive(ss, ms, n - 1);
      MoveKeepsSomeKey(ss[n - 1], ms[n - 1], i);
    }
    ActiveKeysAreLive(ss, ms, n);
    SomeIsOne(ss[n], i);
  }

  lemma SomeIsOne(s: Sys, i: string)
    requires OneEach(s) && ActiveKeys(s, i) != {}
    ensures exists k :: ActiveKeys(s, i) == {k}
  {
    var k :| k in ActiveKeys(s, i);
    forall j | j in ActiveKeys(s, i)
      ensures j == k
    {
      assert IsActive(s, j) && IsActive(s, k);
    }
    assert ActiveKeys(s, i) == {k};
  }

  // ---------------------------------------------------------------- nothing left behind

  predicate Accounted(s: Sys, k: KeyId) {
    || IsActive(s, k)
    || exists h :: h in s.handlers && (Holds(s.handlers[h], k) || Revoking(s.handlers[h], k))
  }

  predicate Revoking(x: Handler, k: KeyId) {
    x.pc.RevokingOld? && x.pc.retired == k
  }

  /** While nothing was lost, every live key is active or in the hands of a running handler. */
  predicate Tidy(s: Sys) {
    s.clean ==> forall k :: k in s.live ==> Accounted(s, k)
  }

  lemma OtherStillAccounts(s: Sys, s': Sys, h: nat, k: KeyId)
    requires h in s.handlers && s'.registry == s.registry && Accounted(s, k)
    requires s.handlers.Keys <= s'.handlers.Keys
    requires forall g :: g in s.handlers && g != h ==> s'.handlers[g] == s.handlers[g]
    requires Holds(s.handlers[h], k) || Revoking(s.handlers[h], k) ==>
               Holds(s'.handlers[h], k) || Revoking(s'.handlers[h], k)
    ensures Accounted(s', k)
  {
    if !IsActive(s, k) {
      var g :| g in s.handlers && (Holds(s.handlers[g], k) || Revoking(s.handlers[g], k));
      assert g in s'.handlers && (Holds(s'.handlers[g], k) || Revoking(s'.handlers[g], k));
    } else {
      assert IsActive(s', k);
    }
  }

  lemma CommitStaysTidy(s: Sys, h: nat)
    requires Sound(s) && Tidy(s) && h in s.handlers && s.handlers[h].pc.Storing? && Committed(s, h).Some?
    ensures Tidy(AfterStore(s, h))
  {
    var s', x := AfterStore(s, h), s.handlers[h];
    CommitEffect(s, h);
    if s.clean {
      forall k | k in s'.live
        ensures Accounted(s', k)
      {
        assert Accounted(s, k);
        if IsActive(s, k) {
          assert IsActive(s', k) || Revoking(s'.handlers[h], k);
        } else {
          var g :| g in s.handlers && (Holds(s.handlers[g], k) || Revoking(s.handlers[g], k));
          assert g == h ==> IsActive(s', k);
          assert g != h ==> s'.handlers[g] == s.handlers[g];
        }
      }
    }
  }

  lemma MoveStaysTidy(s: Sys, m: Move)
    requires Sound(s) && Tidy(s) && Enabled(s, m) && !m.StoreLost?
    ensures Tidy(Apply(s, m))
  {
    var s' := Apply(s, m);
    if s'.clean && !m.Arrive? {
      var h := m.h;
      if m.Store? && Committed(s, h).Some? {
        CommitStaysTidy(s, h);
      } else {
        forall k | k in s'.live
          ensures Accounted(s', k)
        {
          if k in s.live {
            OtherStillAccounts(s, s', h, k);
          } else {
            assert Holds(s'.handlers[h], k);
          }
        }
      }
    } else if s'.clean {
      forall k | k in s'.live
        ensures Accounted(s', k)
      {
        assert Accounted(s, k);
        if !IsActive(s, k) {
          var g :| g in s.handlers && (Holds(s.handlers[g], k) || Revoking(s.handlers[g], k));
          assert s'.handlers[g] == s.handlers[g];
        }
      }
    }
  }

  lemma {:induction false} RunStaysTidy(ss: seq<Sys>, ms: seq<Move>, n: nat)
    requires IsRun(ss, ms) && n <= |ms| && Sound(ss[0]) && Tidy(ss[0])
    requires forall i :: 0 <= i < |ms| ==> !ms[i].StoreLost?
    ensures Sound(ss[n]) && Tidy(ss[n])
  {
    if n > 0 {
      RunStaysTidy(ss, ms, n - 1);
      MoveStaysSound(ss[n - 1], ms[n - 1]);
      MoveStaysTidy(ss[n - 1], ms[n - 1]);
    }
  }

  function LiveKeys(s: Sys, identity: string): set<KeyId> {
    set k | k in s.live && k in s.owner && s.owner[k] == identity
  }

  /** A key can be lost sight of: its creation was never answered, its revocation failed, or its handler stopped. */
  predicate Loses(m: Move) {
    m.CreateLost? || m.CompensateFails? || m.RevokeOldFails? || m.Stop?
  }

  lemma {:induction false} RunStaysClean(ss: seq<Sys>, ms: seq<Move>, n: nat)
    requires IsRun(ss, ms) && n <= |ms| && ss[0] == START && forall i :: 0 <= i < |ms| ==> !Loses(ms[i])
    ensures ss[n].clean
  {
    if n > 0 {
      RunStaysClean(ss, ms, n - 1);
      MoveStaysClean(ss[n - 1], ms[n - 1]);
    }
  }

  lemma MoveStaysClean(s: Sys, m: Move)
    requires Enabled(s, m) && !Loses(m) && s.clean
    ensures Apply(s, m).clean
  {
  }

  /** When every handler has finished and nothing was lost on the way, the keys the provider accepts
      for an identity are exactly its active registry keys. */
  lemma CompletionLeavesNoOrphan(ss: seq<Sys>, ms: seq<Move>, i: string)
    requires IsRun(ss, ms) && ss[0] == START
    requires forall i :: 0 <= i < |ms| ==> !ms[i].StoreLost? && !Loses(ms[i])
    requires forall h :: h in ss[|ms|].handlers ==> ss[|ms|].handlers[h].pc.Finished?
    ensures LiveKeys(ss[|ms|], i) == ActiveKeys(ss[|ms|], i)
  {
    RunStaysTidy(ss, ms, |ms|);
    RunStaysClean(ss, ms, |ms|);
    var s := ss[|ms|];
    forall k | k in s.live
      ensures IsActive(s, k)
    {
      assert Accounted(s, k);
    }
    forall k
      ensures k in LiveKeys(s, i) <==> k in ActiveKeys(s, i)
    {
      assert k in ActiveKeys(s, i) ==> IsActive(s, k);
    }
  }

  // ---------------------------------------------------------------- an ambiguous commit

  /** If a commit takes effect but is reported as an error, the compensation kills the active key. */
  lemma AmbiguousCommitKillsActiveKey(i: string) returns (s: Sys)
    ensures s == Apply(Apply(Apply(Apply(Apply(START, Arrive(0, i, false)), Read(0)), Create(0)), StoreLost(0)), Compensate(0))
    ensures IsActive(s, 0) && 0 !in s.live
  {
    var s1 := Apply(START, Arrive(0, i, false));
    assert ActiveKeys(s1, i) == {};
    var s2 := Apply(s1, Read(0));
    var s3 := Apply(s2, Create(0));
    assert s3.registry == map[];
    var s4 := Apply(s3, StoreLost(0));
    assert IsActive(s4, 0);
    s := Apply(s4, Compensate(0));
  }
}
