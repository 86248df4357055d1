/** IssueKey and RegenerateKey as the sequences of effects they are, proved to follow the key saga
    (internal/auth/handlers.go, internal/signup/store.go). */
module KeyHandlers {
  import opened Prices
  import opened KeySaga

  /** Which calls of one handler fail. */
  datatype Failures = Failures(read: bool, create: bool, store: bool, revoke: bool)

  /** The saga after these moves, if each was enabled in its turn. */
  ghost function RunOf(moves: seq<Move>): Option<Sys> {
    if moves == [] then Some(START)
    else
      var before, m := RunOf(moves[..|moves| - 1]), moves[|moves| - 1];
      if before.Some? && Enabled(before.value, m) && !m.StoreLost? then Some(Apply(before.value, m)) else None
  }

  lemma RunOneMore(moves: seq<Move>, m: Move)
    requires RunOf(moves).Some? && Enabled(RunOf(moves).value, m) && !m.StoreLost?
    ensures RunOf(moves + [m]) == Some(Apply(RunOf(moves).value, m))
  {
    assert (moves + [m])[..|moves|] == moves;
  }

  lemma {:induction false} RunIsSound(moves: seq<Move>)
    requires RunOf(moves).Some?
    ensures Sound(RunOf(moves).value)
  {
    if moves != [] {
      var init := moves[..|moves| - 1];
      RunIsSound(init);
      MoveStaysSound(RunOf(init).value, moves[|moves| - 1]);
    }
  }

  /** What the handlers record is a run of the saga. */
  lemma {:induction false} RecordedIsRun(moves: seq<Move>) returns (ss: seq<Sys>)
    requires RunOf(moves).Some?
    ensures IsRun(ss, moves) && ss[0] == START && ss[|moves|] == RunOf(moves).value
    ensures forall i :: 0 <= i < |moves| ==> !moves[i].StoreLost?
  {
    if moves == [] {
      ss := [START];
    } else {
      var init := moves[..|moves| - 1];
      ss := RecordedIsRun(init);
      ss := ss + [RunOf(moves).value];
      assert forall i :: 0 <= i < |init| ==> moves[i] == init[i];
    }
  }

  /** The identity's active keys. */
  function KeysOf(registry: map<KeyId, KeyRow>, identity: string): set<KeyId> {
    set k | k in registry && registry[k] == KeyRow(identity, Active)
  }

  /** The new key is the identity's active one, its active keys of before are revoked, nothing else changed. */
  ghost predicate Rotated(before: map<KeyId, KeyRow>, after: map<KeyId, KeyRow>, identity: string, key: KeyId) {
    && key !in before && after.Keys == before.Keys + {key} && after[key] == KeyRow(identity, Active)
    && forall k :: k in before ==>
         after[k] == if before[k] == KeyRow(identity, Active) then KeyRow(identity, Revoked) else before[k]
  }

  /** No call that a new key depends on fails. */
  predicate Works(f: Failures) {
    !f.read && !f.create && !f.store
  }

  /** The registry table and the key provider. moves records the saga run so far. */
  class Stores {
    var registry: map<KeyId, KeyRow>
    var live: set<KeyId>
    var next: KeyId
    ghost var moves: seq<Move>

    constructor ()
      ensures Valid() && registry == map[] && live == {} && moves == []
    {
      registry, live, next := map[], {}, 0;
      moves := [];
    }

    ghost predicate Valid()
      reads this
    {
      RunOf(moves).Some? && Now().registry == registry && Now().live == live && Now().next == next
    }

    ghost function Now(): Sys
      reads this
      requires RunOf(moves).Some?
    {
      RunOf(moves).value
    }

    /** Records one move of the saga; the caller has made the same change to the real stores. */
    ghost method Record(m: Move)
      requires RunOf(moves).Some? && Enabled(Now(), m) && !m.StoreLost?
      modifies `moves
      ensures moves == old(moves) + [m] && RunOf(moves) == Some(Apply(old(Now()), m))
    {
      RunOneMore(moves, m);
      moves := moves + [m];
    }

    method GetActiveKey(identity: string) returns (k: Option<KeyId>)
      requires Valid()
      ensures KeysOf(registry, identity) == ActiveKeys(Now(), identity) == if k.Some? then {k.value} else {}
      ensures k.Some? ==> k.value == TheKey(ActiveKeys(Now(), identity))
    {
      var a := KeysOf(registry, identity);
      assert a == ActiveKeys(Now(), identity);
      if a == {} {
        return None;
      }
      var x :| x in a;
      RunIsSound(moves);
      TheOnlyKey(Now(), identity, x);
      SomeIsOne(Now(), identity);
      return Some(x);
    }

    /** One transaction: revoke the prior key if it is still active, then insert the new one. With
        no prior key it is a plain insert. */
    method RevokeAndInsertKey(identity: string, prior: Option<KeyId>, key: KeyId) returns (ok: bool)
      requires key !in registry
      modifies `registry
      ensures var r := OldRevoked(old(registry), identity, prior);
              && ok == !HasActive(r, identity)
              && registry == if ok then r[key := KeyRow(identity, Active)] else old(registry)
    {
      var r := registry;
      if prior.Some? && prior.value in r && r[prior.value] == KeyRow(identity, Active) {
        r := r[prior.value := KeyRow(identity, Revoked)];
      }
      if HasActive(r, identity) {
        return false;
      }
      registry := r[key := KeyRow(identity, Active)];
      return true;
    }

    method IssueKey(ghost h: nat, identity: string, f: Failures) returns (reply: Reply)
      requires Valid() && h !in Now().handlers
      modifies this
      ensures Valid() && h in Now().handlers && Now().handlers[h] == Handler(identity, false, Finished(reply))
      ensures moves == old(moves) + IssueMoves(h, identity, f, reply)
      ensures reply == Existing <==> !f.read && KeysOf(old(registry), identity) != {}
      ensures !reply.Issued? ==> registry == old(registry) && old(live) <= live
      ensures reply.Issued? ==> IsActive(Now(), reply.key) && live == old(live) + {reply.key}
      ensures reply.Issued? ==> Rotated(old(registry), registry, identity, reply.key)
      ensures Works(f) ==> reply.Issued? || reply.Existing?
    {
      Enter(h, identity, false);
      var existing := Lookup(h, identity, false, f);
      if f.read {
        return Refused;
      }
      if existing.Some? {
        return Existing;
      }
      reply := CreateAndPersist(h, identity, None, f);
    }

    /** A refusal takes nothing away. On success the new key is active before the old one is revoked:
        the revocation is the last move, after the commit. */
    method RegenerateKey(ghost h: nat, identity: string, f: Failures) returns (reply: Reply)
      requires Valid() && h !in Now().handlers
      modifies this
      ensures Valid() && h in Now().handlers && Now().handlers[h] == Handler(identity, true, Finished(reply))
      ensures moves == old(moves) + RegenerateMoves(h, identity, f, reply, KeysOf(old(registry), identity) != {})
      ensures reply != Existing && (!reply.Issued? ==> registry == old(registry) && old(live) <= live)
      ensures reply.Issued? ==> IsActive(Now(), reply.key)
      ensures reply.Issued? ==>
                live == old(live) + {reply.key} - if f.revoke then {} else KeysOf(old(registry), identity)
      ensures reply.Issued? ==> Rotated(old(registry), registry, identity, reply.key)
      ensures Works(f) ==> reply.Issued?
    {
      Enter(h, identity, true);
      var prior := Lookup(h, identity, true, f);
      if f.read {
        return Refused;
      }
      reply := ReplaceKey(h, identity, prior, f);
      OneAfterAnother(old(moves), Arrive(h, identity, true), Read(h), SharedMoves(h, f, reply));
    }

    /** RegenerateKey after its read: a new key, and only then an end to the old one. */
    method ReplaceKey(ghost h: nat, identity: string, prior: Option<KeyId>, f: Failures) returns (reply: Reply)
      requires Valid() && h in Now().handlers
      requires Now().handlers[h].identity == identity && Now().handlers[h].pc == Creating(prior)
      requires KeysOf(registry, identity) == if prior.Some? then {prior.value} else {}
      modifies this
      ensures Valid() && h in Now().handlers && Now().handlers[h] == old(Now().handlers)[h].(pc := Finished(reply))
      ensures moves == old(moves) + SharedMoves(h, f, reply) + LastMove(h, f, reply, prior.Some?)
      ensures reply != Existing && (!reply.Issued? ==> registry == old(registry) && old(live) <= live)
      ensures reply.Issued? ==> IsActive(Now(), reply.key)
      ensures reply.Issued? ==>
                live == old(live) + {reply.key} - if prior.Some? && !f.revoke then {prior.value} else {}
      ensures reply.Issued? ==> Rotated(old(registry), registry, identity, reply.key)
      ensures Works(f) ==> reply.Issued?
    {
      reply := CreateAndPersist(h, identity, prior, f);
      if reply.Issued? && prior.Some? {
        RevokePrior(h, prior.value, reply.key, f);
      }
    }

    /** A request arrives. */
    ghost method Enter(h: nat, identity: string, regenerate: bool)
      requires Valid() && h !in Now().handlers
      modifies `moves
      ensures Valid() && moves == old(moves) + [Arrive(h, identity, regenerate)]
      ensures Now().handlers == old(Now()).handlers[h := Handler(identity, regenerate, Reading)]
    {
      Record(Arrive(h, identity, regenerate));
    }

    /** The read of the registry that both handlers start with. */
    method Lookup(ghost h: nat, identity: string, ghost regenerate: bool, f: Failures) returns (prior: Option<KeyId>)
      requires Valid() && h in Now().handlers && Now().handlers[h] == Handler(identity, regenerate, Reading)
      modifies `moves
      ensures Valid() && moves == old(moves) + [if f.read then ReadFails(h) else Read(h)]
      ensures Now().handlers == old(Now()).handlers[h := Handler(identity, regenerate,
                if f.read then Finished(Refused) else if prior.Some? && !regenerate then Finished(Existing) else Creating(prior))]
      ensures !f.read ==> KeysOf(registry, identity) == if prior.Some? then {prior.value} else {}
    {
      if f.read {
        Record(ReadFails(h));
        return None;
      }
      prior := GetActiveKey(identity);
      Record(Read(h));
    }

    /** Best-effort revocation of the replaced key, after the registry has committed. */
    method RevokePrior(ghost h: nat, prior: KeyId, key: KeyId, f: Failures)
      requires Valid() && h in Now().handlers && Now().handlers[h].pc == RevokingOld(prior, key)
      modifies this
      ensures Valid() && registry == old(registry) && live == if f.revoke then old(live) else old(live) - {prior}
      ensures moves == old(moves) + [if f.revoke then RevokeOldFails(h) else RevokeOld(h)]
      ensures Now().handlers == old(Now().handlers)[h := old(Now().handlers)[h].(pc := Finished(Issued(key)))]
    {
      if f.revoke {
        Record(RevokeOldFails(h));
      } else {
        live := live - {prior};
        Record(RevokeOld(h));
      }
    }

    /** The part both handlers share: create the key, persist it, compensate if that fails. */
    method CreateAndPersist(ghost h: nat, identity: string, prior: Option<KeyId>, f: Failures) returns (reply: Reply)
      requires Valid() && h in Now().handlers
      requires Now().handlers[h].identity == identity && Now().handlers[h].pc == Creating(prior)
      requires KeysOf(registry, identity) == if prior.Some? then {prior.value} else {}
      modifies this
      ensures Valid() && moves == old(moves) + SharedMoves(h, f, reply)
      ensures Now().handlers.Keys == old(Now().handlers).Keys
      ensures Now().handlers[h] == old(Now().handlers)[h].(pc :=
                if reply.Issued? && prior.Some? then RevokingOld(prior.value, reply.key) else Finished(reply))
      ensures reply != Existing && (!reply.Issued? ==> registry == old(registry) && old(live) <= live)
      ensures reply.Issued? ==> IsActive(Now(), reply.key) && live == old(live) + {reply.key}
      ensures reply.Issued? ==> Rotated(old(registry), registry, identity, reply.key)
      ensures !f.create && !f.store ==> reply.Issued?
    {
      if f.create {
        Record(CreateFails(h));
        return Refused;
      }
      var key := CreateKey(h, identity, prior);
      var ok := Persist(h, identity, prior, key, f);
      if ok {
        return Issued(key);
      }
      Compensation(h, key, f);
      return Refused;
    }

    /** The provider hands out a key that was never handed out before. */
    method CreateKey(ghost h: nat, identity: string, ghost prior: Option<KeyId>) returns (key: KeyId)
      requires Valid() && h in Now().handlers
      requires Now().handlers[h].identity == identity && Now().handlers[h].pc == Creating(prior)
      modifies this
      ensures Valid() && registry == old(registry) && key !in old(live) && live == old(live) + {key}
      ensures moves == old(moves) + [Create(h)]
      ensures Now().handlers == old(Now().handlers)[h := old(Now().handlers)[h].(pc := Storing(prior, key))]
    {
      key := next;
      RunIsSound(moves);
      live, next := live + {key}, next + 1;
      Record(Create(h));
    }

    method Persist(ghost h: nat, identity: string, prior: Option<KeyId>, key: KeyId, f: Failures) returns (ok: bool)
      requires Valid() && h in Now().handlers
      requires Now().handlers[h].identity == identity && Now().handlers[h].pc == Storing(prior, key)
      requires KeysOf(registry, identity) == if prior.Some? then {prior.value} else {}
      modifies this
      ensures Valid() && live == old(live) && (!ok ==> registry == old(registry))
      ensures moves == old(moves) + [if f.store then StoreFails(h) else Store(h)]
      ensures Now().handlers == old(Now().handlers)[h := old(Now().handlers)[h].(pc :=
                if !ok then Compensating(key)
                else if prior.Some? then RevokingOld(prior.value, key) else Finished(Issued(key)))]
      ensures ok ==> IsActive(Now(), key) && Rotated(old(registry), registry, identity, key)
      ensures !f.store ==> ok
    {
      if f.store {
        Record(StoreFails(h));
        return false;
      }
      RunIsSound(moves);
      StoreAgrees(Now(), h);
      PriorIsOnlyKey(registry, identity, prior);
      ok := RevokeAndInsertKey(identity, prior, key);
      Record(Store(h));
    }

    /** Best-effort revocation of a key that could not be registered. */
    method Compensation(ghost h: nat, key: KeyId, f: Failures)
      requires Valid() && h in Now().handlers && Now().handlers[h].pc == Compensating(key)
      modifies this
      ensures Valid() && moves == old(moves) + [if f.revoke then CompensateFails(h) else Compensate(h)]
      ensures Now().handlers == old(Now().handlers)[h := old(Now().handlers)[h].(pc := Finished(Refused))]
      ensures registry == old(registry) && live == if f.revoke then old(live) else old(live) - {key}
    {
      if f.revoke {
        Record(CompensateFails(h));
      } else {
        live := live - {key};
        Record(Compensate(h));
      }
    }
  }

  // ---------------------------------------------------------------- the order of effects

  function SharedMoves(h: nat, f: Failures, reply: Reply): seq<Move> {
    if f.create then [CreateFails(h)]
    else
      [Create(h)] + [if f.store then StoreFails(h) else Store(h)] +
      if reply.Issued? then [] else [if f.revoke then CompensateFails(h) else Compensate(h)]
  }

  lemma OneAfterAnother(ms: seq<Move>, a: Move, b: Move, rest: seq<Move>)
    ensures ms + [a] + [b] + rest == ms + ([a, b] + rest)
  {
  }

  function IssueMoves(h: nat, identity: string, f: Failures, reply: Reply): seq<Move> {
    [Arrive(h, identity, false)] +
    if f.read then [ReadFails(h)] else [Read(h)] + if reply == Existing then [] else SharedMoves(h, f, reply)
  }

  function RegenerateMoves(h: nat, identity: string, f: Failures, reply: Reply, hadKey: bool): seq<Move> {
    [Arrive(h, identity, true), if f.read then ReadFails(h) else Read(h)] +
    (if f.read then [] else SharedMoves(h, f, reply)) + LastMove(h, f, reply, hadKey)
  }

  function LastMove(h: nat, f: Failures, reply: Reply, hadKey: bool): seq<Move> {
    if reply.Issued? && hadKey then [if f.revoke then RevokeOldFails(h) else RevokeOld(h)] else []
  }

  predicate HasActive(r: map<KeyId, KeyRow>, identity: string) {
    exists k :: k in r && r[k] == KeyRow(identity, Active)
  }

  /** Once the prior key is revoked the identity has no active key, and no other row has changed. */
  lemma PriorIsOnlyKey(registry: map<KeyId, KeyRow>, identity: string, prior: Option<KeyId>)
    requires KeysOf(registry, identity) == if prior.Some? then {prior.value} else {}
    ensures var r := OldRevoked(registry, identity, prior);
            && !HasActive(r, identity) && r.Keys == registry.Keys
            && forall k :: k in registry ==>
                 r[k] == if registry[k] == KeyRow(identity, Active) then KeyRow(identity, Revoked) else registry[k]
  {
    assert forall k :: k in registry && registry[k] == KeyRow(identity, Active) <==> k in KeysOf(registry, identity);
    assert prior.Some? ==> prior.value in KeysOf(registry, identity);
  }

  lemma TheOnlyKey(s: Sys, identity: string, k: KeyId)
    requires OneEach(s) && k in ActiveKeys(s, identity)
    ensures k == TheKey(ActiveKeys(s, identity))
  {
    assert TheKey(ActiveKeys(s, identity)) in ActiveKeys(s, identity);
    assert IsActive(s, k) && IsActive(s, TheKey(ActiveKeys(s, identity)));
  }

  lemma StoreAgrees(s: Sys, h: nat)
    requires Sound(s) && h in s.handlers && s.handlers[h].pc.Storing?
    ensures var x := s.handlers[h];
            var r := OldRevoked(s.registry, x.identity, x.pc.prior);
            && x.pc.key !in s.registry
            && Committed(s, h) == if HasActive(r, x.identity) then None else Some(r[x.pc.key := KeyRow(x.identity, Active)])
  {
    assert HandlerOk(s, s.handlers[h]);
  }
}
