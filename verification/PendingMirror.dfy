/** The pending map, its two-observation gate, and the Redis hash that mirrors it
    (internal/reconciler/reconciler.go, internal/reconciler/pending.go). */
module PendingMirror {
  import opened Prices
  import opened DiffEngine

  /** 72 hours in nanoseconds. */
  const PENDING_TTL: int := 259200000000000

  datatype Entry = Entry(value: real, source: string, count: int, lastSeen: int)

  type Pending = map<string, Entry>

  function FieldName(f: PriceField): string {
    match f
    case Input => "input_cost_per_token"
    case Output => "output_cost_per_token"
  }

  function EffectiveProvider(d: PriceDiff): string {
    if d.underlying != "" then d.underlying else d.source
  }

  function Joined(slug: string, name: string, provider: string): string {
    slug + ":" + name + ":" + provider
  }

  function PendingKey(slug: string, field: PriceField, provider: string): string {
    Joined(slug, FieldName(field), provider)
  }

  // ---------------------------------------------------------------- telling keys apart

  lemma SameEnd(a: string, p: string, b: string, q: string)
    requires a + p == b + q && |p| == |q|
    ensures a == b && p == q
  {
    assert a == (a + p)[..|a|] && b == (b + q)[..|b|];
    assert p == (a + p)[|a|..] && q == (b + q)[|b|..];
  }

  lemma NoColonAfter(a: string, p: string, b: string, q: string)
    requires a + ":" + p == b + ":" + q && ':' !in p
    ensures |b| <= |a|
  {
    var s := a + ":" + p;
    assert s[|b|] == ':';
    assert forall i :: |a| < i < |s| ==> s[i] == p[i - |a| - 1];
  }

  lemma LastColonSplits(a: string, p: string, b: string, q: string)
    requires a + ":" + p == b + ":" + q && ':' !in p && ':' !in q
    ensures a == b && p == q
  {
    NoColonAfter(a, p, b, q);
    NoColonAfter(b, q, a, p);
    SameEnd(a + ":", p, b + ":", q);
    assert a == (a + ":")[..|a|] && b == (b + ":")[..|b|];
  }

  lemma NamesDiffer(f: PriceField, f': PriceField)
    ensures ':' !in FieldName(f) && (FieldName(f) == FieldName(f') <==> f == f')
  {
    assert |FieldName(Input)| != |FieldName(Output)|;
  }

  lemma SameProviderSplits(s: string, name: string, s': string, name': string, p: string)
    requires ':' !in name && ':' !in name' && Joined(s, name, p) == Joined(s', name', p)
    ensures s == s' && name == name'
  {
    assert (s + ":" + name) + (":" + p) == Joined(s, name, p);
    assert (s' + ":" + name') + (":" + p) == Joined(s', name', p);
    SameEnd(s + ":" + name, ":" + p, s' + ":" + name', ":" + p);
    LastColonSplits(s, name, s', name');
  }

  /** Reports of one provider never share an entry, whatever colons their names hold. */
  lemma SameProviderInjective(s: string, f: PriceField, s': string, f': PriceField, p: string)
    ensures PendingKey(s, f, p) == PendingKey(s', f', p) <==> s == s' && f == f'
  {
    NamesDiffer(f, f');
    NamesDiffer(f', f);
    if PendingKey(s, f, p) == PendingKey(s', f', p) {
      SameProviderSplits(s, FieldName(f), s', FieldName(f'), p);
    }
  }

  predicate EndsWith(s: string, t: string) {
    |s| >= |t| && s[|s| - |t|..] == t
  }

  /** p is the name and q joined by a colon, or ends in such a pair after a further colon. */
  predicate Swallows(p: string, name: string, q: string) {
    p == name + ":" + q || EndsWith(p, ":" + (name + ":" + q))
  }

  predicate ExtendsAt(p: string, f: PriceField, q: string) {
    Swallows(p, FieldName(f), q)
  }

  predicate Extends(p: string, q: string) {
    exists f :: ExtendsAt(p, f, q)
  }

  /** Some report of one provider can be taken for some report of the other. */
  predicate ProvidersCollide(p: string, q: string) {
    Extends(p, q) || Extends(q, p)
  }

  /** If text ending in a colon goes on with x where other text goes on with a colon-free name and a
      final colon, then x holds the whole name. */
  lemma TailHoldsName(lead: string, x: string, rest: string, name: string)
    requires lead != "" && lead[|lead| - 1] == ':' && x != "" && ':' !in name
    requires lead + x == rest + (":" + name + ":")
    ensures x == name + ":" || EndsWith(x, ":" + name + ":")
  {
    var s, mark := lead + x, ":" + name + ":";
    assert s[|lead| - 1] == ':';
    assert forall i :: 0 <= i < |mark| ==> s[|rest| + i] == mark[i];
    assert forall i :: 0 < i < |mark| - 1 ==> mark[i] == name[i - 1];
    if |rest| < |lead| {
      assert |lead| == |rest| + 1;
      assert x == s[|lead|..] == mark[1..] == name + ":";
    } else {
      assert x[|x| - |mark|..] == s[|rest|..] == mark;
    }
  }

  lemma SwallowedTail(x: string, name: string, q: string)
    requires x == name + ":" || EndsWith(x, ":" + name + ":")
    ensures Swallows(x + q, name, q)
  {
    if EndsWith(x, ":" + name + ":") {
      var u := x[..|x| - |":" + name + ":"|];
      assert x == u + (":" + name + ":");
      assert x + q == u + (":" + (name + ":" + q));
    }
  }

  /** The longer provider swallows the field name and the colon after it. */
  lemma LongerSwallows(s: string, name: string, p: string, s': string, name': string, q: string)
    requires Joined(s, name, p) == Joined(s', name', q) && |p| > |q| && ':' !in name'
    ensures Swallows(p, name', q)
  {
    var lead, mark, x, rest := s + ":" + name + ":", ":" + name' + ":", p[..|p| - |q|], p[|p| - |q|..];
    assert p == x + rest;
    assert (lead + x) + rest == Joined(s, name, p);
    assert (s' + mark) + q == Joined(s', name', q);
    SameEnd(lead + x, rest, s' + mark, q);
    TailHoldsName(lead, x, s', name');
    SwallowedTail(x, name', q);
  }

  lemma SwallowCollides(s: string, name: string, p: string, name': string, q: string) returns (s': string)
    requires Swallows(p, name', q)
    ensures Joined(s, name, p) == Joined(s', name', q)
  {
    var pair := name' + ":" + q;
    if p == pair {
      s' := s + ":" + name;
      assert s + ":" + name + ":" + pair == s' + ":" + name' + ":" + q;
    } else {
      var u := p[..|p| - |":" + pair|];
      assert p == u + (":" + pair);
      s' := s + ":" + name + ":" + u;
      assert s + ":" + name + ":" + (u + (":" + pair)) == s' + ":" + name' + ":" + q;
    }
  }

  /** Two providers share a pending entry for some slugs and fields if and only if one extends the
      other; having a colon alone does no harm. */
  lemma CollideIff(p: string, q: string)
    requires p != q
    ensures ProvidersCollide(p, q) <==> exists s, f, s', f' :: PendingKey(s, f, p) == PendingKey(s', f', q)
  {
    if f :| ExtendsAt(p, f, q) {
      var s' := SwallowCollides("", FieldName(Input), p, FieldName(f), q);
      assert PendingKey("", Input, p) == PendingKey(s', f, q);
    }
    if f :| ExtendsAt(q, f, p) {
      var s' := SwallowCollides("", FieldName(Input), q, FieldName(f), p);
      assert PendingKey(s', f, p) == PendingKey("", Input, q);
    }
    forall s, f, s', f' | PendingKey(s, f, p) == PendingKey(s', f', q)
      ensures ProvidersCollide(p, q)
    {
      EqualKeysCollide(s, f, p, s', f', q);
    }
  }

  lemma EqualKeysCollide(s: string, f: PriceField, p: string, s': string, f': PriceField, q: string)
    requires p != q && PendingKey(s, f, p) == PendingKey(s', f', q)
    ensures ProvidersCollide(p, q)
  {
    NamesDiffer(f, f');
    NamesDiffer(f', f);
    if |p| > |q| {
      LongerSwallows(s, FieldName(f), p, s', FieldName(f'), q);
      assert ExtendsAt(p, f', q);
    } else if |p| < |q| {
      LongerSwallows(s', FieldName(f'), q, s, FieldName(f), p);
      assert ExtendsAt(q, f, p);
    } else {
      SameEnd(s + ":" + FieldName(f) + ":", p, s' + ":" + FieldName(f') + ":", q);
    }
  }

  /** Keys tell (slug, field, provider) apart for every two providers that do not collide. */
  lemma KeyInjective(s: string, f: PriceField, p: string, s': string, f': PriceField, p': string)
    requires !ProvidersCollide(p, p')
    ensures PendingKey(s, f, p) == PendingKey(s', f', p') <==> s == s' && f == f' && p == p'
  {
    if PendingKey(s, f, p) == PendingKey(s', f', p') {
      if p != p' {
        EqualKeysCollide(s, f, p, s', f', p');
      }
      SameProviderInjective(s, f, s', f', p);
    }
  }

  lemma SwallowHasColon(p: string, name: string, q: string)
    requires Swallows(p, name, q)
    ensures ':' in p
  {
    var t := ":" + (name + ":" + q);
    if EndsWith(p, t) {
      assert p[|p| - |t|] == t[0];
    } else {
      assert p[|name|] == ':';
    }
  }

  /** Providers without a colon never collide. */
  lemma ColonFreeDoNotCollide(p: string, q: string)
    requires ':' !in p && ':' !in q
    ensures !ProvidersCollide(p, q)
  {
    if f :| ExtendsAt(p, f, q) {
      SwallowHasColon(p, FieldName(f), q);
    }
    if f :| ExtendsAt(q, f, p) {
      SwallowHasColon(q, FieldName(f), p);
    }
  }

  /** A colon inside a provider can let two different models share one pending entry. */
  lemma ColonProvidersCollide(slug: string, f: PriceField, x: string, y: string)
    ensures PendingKey(slug, f, PendingKey(x, f, y)) == PendingKey(PendingKey(slug, f, x), f, y)
  {
    var name := FieldName(f);
    assert slug + ":" + name + ":" + (x + ":" + name + ":" + y) == (slug + ":" + name + ":" + x) + ":" + name + ":" + y;
  }

  predicate Stale(e: Entry, now: int) {
    e.lastSeen < now - PENDING_TTL
  }

  /** The entries a sweep or a load at this time keeps. */
  function Live(m: Pending, now: int): Pending {
    map k | k in m && !Stale(m[k], now) :: m[k]
  }

  // ---------------------------------------------------------------- the gate

  datatype Verdict = Hold | FirstSeen | Confirmed

  datatype MirrorOp = NoOp | Persist(e: Entry) | Remove

  datatype Gated = Gated(pending: Pending, verdict: Verdict, mirror: MirrorOp)

  /** The section of processSingleSource that holds the mutex. `found` says whether a price row
      already exists for the model and source. */
  function Gate(pending: Pending, key: string, value: real, source: string, found: bool, now: int): Gated {
    if !found && key !in pending then Gated(pending, FirstSeen, NoOp)
    else if key in pending && Abs(pending[key].value - value) < EPSILON then
      var e := pending[key].(count := pending[key].count + 1, lastSeen := now);
      if e.count >= 2 then Gated(pending - {key}, Confirmed, Remove)
      else Gated(pending[key := e], Hold, Persist(e))
    else
      var e := Entry(value, source, 1, now);
      Gated(pending[key := e], Hold, Persist(e))
  }

  // ---------------------------------------------------------------- the Redis hash

  /** The hash and the time after which it lapses as a whole. */
  datatype RedisHash = RedisHash(entries: Pending, expireAt: int)

  function HGetAll(h: RedisHash, now: int): Pending {
    if now > h.expireAt then map[] else h.entries
  }

  /** HSET followed by EXPIRE. */
  function HSetExpire(h: RedisHash, key: string, e: Entry, now: int): RedisHash {
    RedisHash(HGetAll(h, now)[key := e], now + PENDING_TTL)
  }

  function HDel(h: RedisHash, keys: set<string>, now: int): RedisHash {
    RedisHash(HGetAll(h, now) - keys, h.expireAt)
  }

  function ApplyMirror(h: RedisHash, key: string, op: MirrorOp, now: int): RedisHash {
    match op
    case NoOp => h
    case Persist(e) => HSetExpire(h, key, e, now)
    case Remove => HDel(h, {key}, now)
  }

  /** What Redis answers for one key of the hash. */
  function Reads(h: RedisHash, key: string, now: int): Option<Entry> {
    if key in h.entries && now <= h.expireAt then Some(h.entries[key]) else None
  }

  /** Seen within the last 72 hours. */
  predicate SeenLately(e: Entry, now: int) {
    now - e.lastSeen <= 72 * 3600 * 1000000000
  }

  /** After a persist the hash answers with the entry, and with all it held, for the next 72 hours; a
      removal takes its key and nothing else. */
  lemma MirrorReads(h: RedisHash, key: string, op: MirrorOp, now: int, later: int, k: string)
    requires now <= later
    ensures var r := Reads(ApplyMirror(h, key, op, now), k, later);
            match op
            case NoOp => r == Reads(h, k, later)
            case Persist(e) =>
              r == if later - now > 72 * 3600 * 1000000000 then None else if k == key then Some(e) else Reads(h, k, now)
            case Remove => r == if k == key then None else Reads(h, k, later)
  {
  }

  /** The text of a pending key. */
  lemma KeyText(slug: string, provider: string)
    ensures PendingKey(slug, Input, provider) == slug + ":input_cost_per_token:" + provider
    ensures PendingKey(slug, Output, provider) == slug + ":output_cost_per_token:" + provider
  {
    assert ":" + "input_cost_per_token" + ":" == ":input_cost_per_token:";
    assert ":" + "output_cost_per_token" + ":" == ":output_cost_per_token:";
    KeyParts(slug, "input_cost_per_token", provider);
    KeyParts(slug, "output_cost_per_token", provider);
  }

  lemma KeyParts(slug: string, name: string, provider: string)
    ensures Joined(slug, name, provider) == slug + (":" + name + ":") + provider
  {
  }
}
