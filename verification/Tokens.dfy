/** One-time sign-in tokens under concurrent verification and pruning
    (internal/signup/store.go, internal/auth/handlers.go). A row lock makes the read and the update of
    one ConsumeToken call exclusive, but both read the clock. */
module Tokens {
  import opened Prices

  datatype Token = Token(identity: string, expiresAt: int, usedAt: Option<int>)

  type Table = map<string, Token>

  datatype Answer = Granted(identity: string) | NotFound | AlreadyUsed | Expired | Failed

  // ---------------------------------------------------------------- one call

  /** What the locked read decides; None means that the update is tried. */
  function Inspect(t: Table, hash: string, now: int): Option<Answer> {
    if hash == "" || hash !in t then Some(NotFound)
    else if t[hash].usedAt.Some? then Some(AlreadyUsed)
    else if now >= t[hash].expiresAt then Some(Expired)
    else None
  }

  function Use(t: Table, hash: string, now: int): Table
    requires hash in t
  {
    t[hash := t[hash].(usedAt := Some(now))]
  }

  /** DELETE ... WHERE expires_at <= NOW() AND used_at IS NULL, as far as rows are not locked. */
  function Pruned(t: Table, now: int, locked: set<string>): Table {
    map h | h in t && (h in locked || t[h].usedAt.Some? || t[h].expiresAt > now) :: t[h]
  }

  class TokenStore {
    var tokens: Table

    constructor (tokens: Table)
      ensures this.tokens == tokens
    {
      this.tokens := tokens;
    }

    /** readAt and writeAt are the two clock_timestamp() readings. */
    method ConsumeToken(hash: string, readAt: int, writeAt: int, fail: bool) returns (a: Answer)
      requires readAt <= writeAt
      modifies this
      ensures a == NotFound <==> hash == "" || (!fail && hash !in old(tokens))
      ensures a == Failed <==> fail && hash != ""
      ensures hash in old(tokens) && !fail && hash != "" ==>
                && (a == AlreadyUsed <==> old(tokens)[hash].usedAt.Some?)
                && (a == Expired <==> old(tokens)[hash].usedAt == None && old(tokens)[hash].expiresAt <= writeAt)
      ensures a.Granted? ==> hash in old(tokens) && a.identity == old(tokens)[hash].identity
      ensures tokens == if a.Granted? then old(tokens)[hash := Token(a.identity, old(tokens)[hash].expiresAt, Some(writeAt))]
                        else old(tokens)
    {
      if hash == "" {
        return NotFound;
      }
      if fail {
        return Failed;
      }
      if hash !in tokens {
        return NotFound;
      }
      var t := tokens[hash];
      if t.usedAt.Some? {
        return AlreadyUsed;
      }
      if !(readAt < t.expiresAt) {
        return Expired;
      }
      if !(t.expiresAt > writeAt) {
        return Expired;
      }
      tokens := tokens[hash := t.(usedAt := Some(writeAt))];
      return Granted(t.identity);
    }

    method DeleteExpiredTokens(now: int) returns (removed: nat)
      modifies this
      ensures forall h :: h in tokens <==> h in old(tokens) && (old(tokens)[h].usedAt.Some? || old(tokens)[h].expiresAt > now)
      ensures forall h :: h in tokens ==> tokens[h] == old(tokens)[h]
      ensures removed == |old(tokens).Keys - tokens.Keys|
    {
      var kept := map h | h in tokens && (tokens[h].usedAt.Some? || tokens[h].expiresAt > now) :: tokens[h];
      removed := |tokens.Keys - kept.Keys|;
      tokens := kept;
    }
  }

  // ---------------------------------------------------------------- concurrent requests

  datatype Pc =
    | Waiting(hash: string)
    | Locked(hash: string)
    | Marking(identity: string)
    | Answered(answer: Answer)

  /** wins is the history of committed consumptions. */
  datatype Win = Win(hash: string, identity: string, at: int, expiresAt: int)

  datatype Sys = Sys(tokens: Table, handlers: map<nat, Pc>, verified: set<string>, clock: int, wins: seq<Win>)

  datatype Move =
    | Insert(hash: string, identity: string, expiresAt: int)
    | Arrive(h: nat, hash: string)
    | Read(h: nat, now: int)
    | Update(h: nat, now: int)
    | Abort(h: nat)
    | MarkVerified(h: nat)
    | Prune(now: int)

  predicate LockHeld(s: Sys, hash: string) {
    exists h :: h in s.handlers && s.handlers[h] == Locked(hash)
  }

  function LockedRows(s: Sys): set<string> {
    set h | h in s.handlers && s.handlers[h].Locked? :: s.handlers[h].hash
  }

  predicate Enabled(s: Sys, m: Move) {
    match m
    case Insert(hash, _, _) => hash != "" && hash !in s.tokens
    case Arrive(h, _) => h !in s.handlers
    case Read(h, now) => h in s.handlers && s.handlers[h].Waiting? && !LockHeld(s, s.handlers[h].hash) && s.clock <= now
    case Update(h, now) => h in s.handlers && s.handlers[h].Locked? && s.handlers[h].hash in s.tokens && s.clock <= now
    case Abort(h) => h in s.handlers && !s.handlers[h].Answered?
    case MarkVerified(h) => h in s.handlers && s.handlers[h].Marking?
    case Prune(now) => s.clock <= now
  }

  function Goto(s: Sys, h: nat, pc: Pc): Sys {
    s.(handlers := s.handlers[h := pc])
  }

  function Apply(s: Sys, m: Move): Sys
    requires Enabled(s, m)
  {
    match m
    case Insert(hash, identity, expiresAt) => s.(tokens := s.tokens[hash := Token(identity, expiresAt, None)])
    case Arrive(h, hash) => Goto(s, h, Waiting(hash))
    case Read(h, now) =>
      var hash := s.handlers[h].hash;
      var a := Inspect(s.tokens, hash, now);
      Goto(s.(clock := now), h, if a.Some? then Answered(a.value) else Locked(hash))
    case Update(h, now) =>
      var hash := s.handlers[h].hash;
      var t := s.tokens[hash];
      if t.usedAt == None && t.expiresAt > now then
        Goto(s.(clock := now, tokens := Use(s.tokens, hash, now), wins := s.wins + [Win(hash, t.identity, now, t.expiresAt)]),
             h, Marking(t.identity))
      else Goto(s.(clock := now), h, Answered(if t.usedAt.Some? then AlreadyUsed else Expired))
    case Abort(h) => Goto(s, h, Answered(Failed))
    case MarkVerified(h) =>
      Goto(s.(verified := s.verified + {s.handlers[h].identity}), h, Answered(Granted(s.handlers[h].identity)))
    case Prune(now) => s.(clock := now, tokens := Pruned(s.tokens, now, LockedRows(s)))
  }

  predicate IsRun(ss: seq<Sys>, ms: seq<Move>) {
    && |ss| == |ms| + 1
    && forall i :: 0 <= i < |ms| ==> Enabled(ss[i], ms[i]) && ss[i + 1] == Apply(ss[i], ms[i])
  }

  const START: Sys := Sys(map[], map[], {}, 0, [])

  predicate Won(s: Sys, identity: string) {
    exists i :: 0 <= i < |s.wins| && s.wins[i].identity == identity
  }

  predicate HandlerOk(s: Sys, pc: Pc) {
    match pc
    case Locked(hash) => hash in s.tokens && s.tokens[hash].usedAt == None
    case Marking(identity) => Won(s, identity)
    case Answered(Granted(identity)) => Won(s, identity) && identity in s.verified
    case _ => true
  }

  /** Consumed tokens stay, each was consumed once and before it expired; a lock has one holder and an
      unused row; only the owner of a consumed token is verified. */
  predicate Sound(s: Sys) {
    && "" !in s.tokens
    && (forall i :: 0 <= i < |s.wins| ==>
          && s.wins[i].at < s.wins[i].expiresAt && s.wins[i].hash in s.tokens
          && s.tokens[s.wins[i].hash] == Token(s.wins[i].identity, s.wins[i].expiresAt, Some(s.wins[i].at)))
    && (forall i, j :: 0 <= i < j < |s.wins| ==> s.wins[i].hash != s.wins[j].hash)
    && (forall g, h :: g in s.handlers && h in s.handlers && s.handlers[g].Locked? && s.handlers[g] == s.handlers[h] ==> g == h)
    && (forall h :: h in s.handlers ==> HandlerOk(s, s.handlers[h]))
    && (forall i :: i in s.verified ==> Won(s, i))
  }

  lemma MoreWins(s: Sys, s': Sys)
    requires s.wins <= s'.wins
    ensures forall i :: Won(s, i) ==> Won(s', i)
  {
    forall i | Won(s, i)
      ensures Won(s', i)
    {
      var n :| 0 <= n < |s.wins| && s.wins[n].identity == i;
      assert s'.wins[n].identity == i;
    }
  }

  lemma UpdateStaysSound(s: Sys, m: Move)
    requires Sound(s) && Enabled(s, m) && m.Update?
    ensures Sound(Apply(s, m))
  {
    var s', h := Apply(s, m), m.h;
    assert HandlerOk(s, s.handlers[h]);
    MoreWins(s, s');
    assert s'.wins[|s.wins|..] != [] ==> Won(s', s.tokens[s.handlers[h].hash].identity) by {
      if s'.wins != s.wins {
        assert s'.wins[|s.wins|].identity == s.tokens[s.handlers[h].hash].identity;
      }
    }
    forall g | g in s.handlers && g != h
      ensures HandlerOk(s', s'.handlers[g])
    {
      assert HandlerOk(s, s.handlers[g]);
    }
  }

  lemma MoveStaysSound(s: Sys, m: Move)
    requires Sound(s) && Enabled(s, m)
    ensures Sound(Apply(s, m))
  {
    if m.Update? {
      UpdateStaysSound(s, m);
    } else {
      var s' := Apply(s, m);
      MoreWins(s, s');
      forall g | g in s'.handlers
        ensures HandlerOk(s', s'.handlers[g])
      {
        if g in s.handlers {
          assert HandlerOk(s, s.handlers[g]);
          assert s.handlers[g].Locked? ==> s.handlers[g].hash in LockedRows(s);
        }
      }
    }
  }

  /** Over every interleaving of requests and pruning: a token is consumed at most once, before it
      expires, and is then kept; an identity is verified only after one of its tokens was consumed. */
  lemma {:induction false} TokensAreSingleUse(ss: seq<Sys>, ms: seq<Move>, n: nat)
    requires IsRun(ss, ms) && n <= |ms| && Sound(ss[0])
    ensures Sound(ss[n])
    ensures forall i, j :: 0 <= i < j < |ss[n].wins| ==> ss[n].wins[i].hash != ss[n].wins[j].hash
    ensures forall i :: i in ss[n].verified ==> Won(ss[n], i)
  {
    if n > 0 {
      TokensAreSingleUse(ss, ms, n - 1);
      MoveStaysSound(ss[n - 1], ms[n - 1]);
    }
  }

  /** Once a token was consumed, every later request for it is told so, at any time and after any pruning. */
  lemma UsedIsToldUsed(ss: seq<Sys>, ms: seq<Move>, n: nat, i: nat, h: nat, now: int)
    requires IsRun(ss, ms) && n <= |ms| && Sound(ss[0]) && i < |ss[n].wins|
    requires Enabled(ss[n], Read(h, now)) && ss[n].handlers[h].hash == ss[n].wins[i].hash
    ensures Apply(ss[n], Read(h, now)).handlers[h] == Answered(AlreadyUsed)
  {
    TokensAreSingleUse(ss, ms, n);
  }

  /** What a request finds: no row, a used one, an expired one, or one it may try to use. */
  lemma ReadAnswers(s: Sys, h: nat, now: int)
    requires Enabled(s, Read(h, now))
    ensures var hash, pc := s.handlers[h].hash, Apply(s, Read(h, now)).handlers[h];
            && (pc == Answered(NotFound) <==> hash == "" || hash !in s.tokens)
            && (hash != "" && hash in s.tokens ==>
                  && (pc == Answered(AlreadyUsed) <==> s.tokens[hash].usedAt.Some?)
                  && (pc == Answered(Expired) <==> s.tokens[hash].usedAt == None && now >= s.tokens[hash].expiresAt)
                  && (pc == Locked(hash) <==> s.tokens[hash].usedAt == None && now < s.tokens[hash].expiresAt))
            && Apply(s, Read(h, now)).tokens == s.tokens
  {
  }

  /** How a request that may try ends: it uses the token up, or is told that the token was used or has
      expired; giving up consumes nothing. */
  lemma TryAnswers(s: Sys, h: nat, now: int)
    requires Enabled(s, Update(h, now))
    ensures var s', t := Apply(s, Update(h, now)), s.tokens[s.handlers[h].hash];
            && (s'.handlers[h] == Answered(AlreadyUsed) <==> t.usedAt.Some?)
            && (s'.handlers[h] == Answered(Expired) <==> t.usedAt == None && t.expiresAt <= now)
            && (s'.handlers[h] == Marking(t.identity) <==> t.usedAt == None && now < t.expiresAt)
            && (s'.handlers[h].Answered? ==> s'.tokens == s.tokens && s'.verified == s.verified && s'.wins == s.wins)
    ensures Apply(s, Abort(h)) == s.(handlers := s.handlers[h := Answered(Failed)])
  {
  }

  /** A request for an unused token whose clock readings both come before its expiry is granted the
      token's identity, and the token is used up. */
  lemma FreshTokenIsGranted(s: Sys, h: nat, readAt: int, writeAt: int)
    requires Sound(s) && Enabled(s, Read(h, readAt)) && s.handlers[h].hash in s.tokens && readAt <= writeAt
    requires var t := s.tokens[s.handlers[h].hash]; t.usedAt == None && writeAt < t.expiresAt
    ensures var hash := s.handlers[h].hash;
            var t, s1 := s.tokens[hash], Apply(s, Read(h, readAt));
            && Enabled(s1, Update(h, writeAt))
            && var s2 := Apply(s1, Update(h, writeAt));
               && s2.tokens == s.tokens[hash := Token(t.identity, t.expiresAt, Some(writeAt))]
               && Enabled(s2, MarkVerified(h))
               && var s3 := Apply(s2, MarkVerified(h));
                  s3.handlers[h] == Answered(Granted(t.identity)) && s3.verified == s.verified + {t.identity}
  {
    ReadAnswers(s, h, readAt);
  }

  /** Pruning takes exactly the expired unused rows that no request holds. */
  lemma PruneTakes(s: Sys, now: int)
    requires Enabled(s, Prune(now))
    ensures var s' := Apply(s, Prune(now));
            && (forall hash :: hash in s'.tokens <==>
                  hash in s.tokens && (s.tokens[hash].usedAt.Some? || s.tokens[hash].expiresAt > now || LockHeld(s, hash)))
            && (forall hash :: hash in s'.tokens ==> s'.tokens[hash] == s.tokens[hash])
            && s'.handlers == s.handlers && s'.wins == s.wins && s'.verified == s.verified
  {
    forall hash
      ensures hash in LockedRows(s) <==> LockHeld(s, hash)
    {
      if hash in LockedRows(s) {
        var h :| h in s.handlers && s.handlers[h].Locked? && s.handlers[h].hash == hash;
        assert s.handlers[h] == Locked(hash);
      }
    }
  }

  /** Over every interleaving, a token stays with its owner and its expiry until it has expired, and for
      good once it was used. */
  lemma {:induction false} UnexpiredTokenStays(ss: seq<Sys>, ms: seq<Move>, m: nat, n: nat, hash: string)
    requires IsRun(ss, ms) && m <= n <= |ms| && hash in ss[m].tokens
    requires ss[n].clock < ss[m].tokens[hash].expiresAt || ss[m].tokens[hash].usedAt.Some?
    ensures hash in ss[n].tokens && ss[m].clock <= ss[n].clock
    ensures var a, b := ss[m].tokens[hash], ss[n].tokens[hash];
            b.identity == a.identity && b.expiresAt == a.expiresAt && (a.usedAt.Some? ==> b == a)
  {
    if m < n {
      ClockGoesOn(ss[n - 1], ms[n - 1]);
      UnexpiredTokenStays(ss, ms, m, n - 1, hash);
      TokenStays(ss[n - 1], ms[n - 1], hash);
    }
  }

  lemma ClockGoesOn(s: Sys, m: Move)
    requires Enabled(s, m)
    ensures s.clock <= Apply(s, m).clock
  {
  }

  lemma TokenStays(s: Sys, m: Move, hash: string)
    requires Enabled(s, m) && hash in s.tokens
    requires Apply(s, m).clock < s.tokens[hash].expiresAt || s.tokens[hash].usedAt.Some?
    ensures hash in Apply(s, m).tokens
    ensures var a, b := s.tokens[hash], Apply(s, m).tokens[hash];
            b.identity == a.identity && b.expiresAt == a.expiresAt && (a.usedAt.Some? ==> b == a)
  {
    if m.Prune? {
      PruneTakes(s, m.now);
    }
  }
}
