/** Immutable benchmark evidence of one model and the choice of the active row per benchmark
    (internal/intelligence/benchmark_store.go, migrations 000014 and 000018). */
module Evidence {
  import opened Prices
  import MultiSource

  /** confidence is the column's text; times are instants. The surrogate id and ingestion time are
      left out: versions are unique per benchmark, so the order never reaches the id. */
  datatype Row = Row(
    benchmark: string, version: string, raw: Option<real>, normalized: Option<real>,
    url: string, modelName: Option<string>, entryName: Option<string>,
    confidence: string, evaluatedAt: nat, observedAt: int)

  datatype RowId = RowId(benchmark: string, version: string)

  type Table = map<RowId, Row>

  function IdOf(e: Row): RowId {
    RowId(e.benchmark, e.version)
  }

  function Latest(x: int, y: int): int {
    if x < y then y else x
  }

  /** INSERT ... ON CONFLICT DO UPDATE SET last_observed_at = GREATEST(...). */
  function Upsert(t: Table, e: Row): Table {
    if IdOf(e) in t then t[IdOf(e) := t[IdOf(e)].(observedAt := Latest(t[IdOf(e)].observedAt, e.observedAt))]
    else t[IdOf(e) := e]
  }

  function UpsertAll(t: Table, es: seq<Row>): Table {
    if es == [] then t else Upsert(UpsertAll(t, es[..|es| - 1]), es[|es| - 1])
  }

  /** Everything but the observation time. */
  function Content(e: Row): Row {
    e.(observedAt := 0)
  }

  /** Producers use a new version whenever the content changes. */
  ghost predicate Consistent(es: set<Row>) {
    forall a, b :: a in es && b in es && IdOf(a) == IdOf(b) ==> Content(a) == Content(b)
  }

  function Observed(t: Table, es: seq<Row>): set<Row> {
    (set k | k in t :: t[k]) + (set e | e in es)
  }

  predicate WellKeyed(t: Table) {
    forall k :: k in t ==> IdOf(t[k]) == k
  }

  /** The row is the newest observation of its id in the set. */
  ghost predicate Newest(r: Row, k: RowId, es: set<Row>) {
    && (exists e :: e in es && IdOf(e) == k && r == e)
    && forall e :: e in es && IdOf(e) == k ==> e.observedAt <= r.observedAt
  }

  /** The table is determined by the set of observations: one row per id, the newest one. */
  ghost predicate Represents(t: Table, es: set<Row>) {
    && (forall k :: k in t <==> exists e :: e in es && IdOf(e) == k)
    && (forall k :: k in t ==> Newest(t[k], k, es))
  }

  lemma OneTablePerSet(s: Table, t: Table, es: set<Row>)
    requires Represents(s, es) && Represents(t, es) && Consistent(es)
    ensures s == t
  {
    forall k | k in s
      ensures k in t && s[k] == t[k]
    {
      assert Newest(s[k], k, es);
      assert k in t && Newest(t[k], k, es);
      assert Content(s[k]) == Content(t[k]);
    }
    forall k | k in t
      ensures k in s
    {
      assert Newest(t[k], k, es);
    }
  }

  lemma UpsertRepresents(t: Table, es: set<Row>, e: Row)
    requires Represents(t, es) && Consistent(es + {e})
    ensures Represents(Upsert(t, e), es + {e})
  {
    var t', k := Upsert(t, e), IdOf(e);
    forall j
      ensures j in t' <==> exists x :: x in es + {e} && IdOf(x) == j
    {
      if j == k {
        assert e in es + {e} && IdOf(e) == j;
      } else if j in t {
        var x :| x in es && IdOf(x) == j;
        assert x in es + {e};
      }
    }
    forall j | j in t'
      ensures Newest(t'[j], j, es + {e})
    {
      if j in t {
        assert Newest(t[j], j, es);
        var x :| x in es && IdOf(x) == j && t[j] == x;
        assert x in es + {e};
        if j == k {
          assert Content(x) == Content(e);
          assert t'[j] == if x.observedAt < e.observedAt then e else x;
        }
      }
    }
  }

  lemma {:induction false} UpsertAllRepresents(t: Table, es: seq<Row>)
    requires WellKeyed(t) && Consistent(Observed(t, es))
    ensures Represents(UpsertAll(t, es), Observed(t, es))
  {
    if es == [] {
      var all := Observed(t, []);
      forall k | k in t
        ensures Newest(t[k], k, all)
      {
        assert t[k] in all;
      }
      forall k
        ensures k in t <==> exists e :: e in all && IdOf(e) == k
      {
        if k in t {
          assert t[k] in all;
        }
      }
    } else {
      var n := |es| - 1;
      assert Observed(t, es) == Observed(t, es[..n]) + {es[n]} by {
        assert es == es[..n] + [es[n]];
      }
      UpsertAllRepresents(t, es[..n]);
      UpsertRepresents(UpsertAll(t, es[..n]), Observed(t, es[..n]), es[n]);
    }
  }

  /** While a version always carries the same content, the evidence table depends only on which
      observations were made, not on their order or repetition. */
  lemma OrderAndRepetitionIrrelevant(t: Table, a: seq<Row>, b: seq<Row>)
    requires WellKeyed(t) && Consistent(Observed(t, a))
    requires forall e :: e in a <==> e in b
    ensures UpsertAll(t, a) == UpsertAll(t, b)
  {
    assert (set e | e in a) == (set e | e in b);
    UpsertAllRepresents(t, a);
    UpsertAllRepresents(t, b);
    OneTablePerSet(UpsertAll(t, a), UpsertAll(t, b), Observed(t, a));
  }

  // ---------------------------------------------------------------- the active row

  /** One column of an ORDER BY key; nulls sort last. */
  datatype Atom = Num(n: real) | Str(s: string) | Null

  predicate AtomLe(a: Atom, b: Atom) {
    match a
    case Null => b.Null?
    case Num(x) => b.Null? || b.Str? || x <= b.n
    case Str(x) => b.Null? || (b.Str? && MultiSource.StrLe(x, b.s))
  }

  /** Lexicographic order of equally long keys. */
  predicate KeyLe(a: seq<Atom>, b: seq<Atom>) {
    a == [] || b == [] || (AtomLe(a[0], b[0]) && (a[0] != b[0] || KeyLe(a[1..], b[1..])))
  }

  lemma AtomOrder(a: Atom, b: Atom, c: Atom)
    ensures AtomLe(a, b) || AtomLe(b, a)
    ensures AtomLe(a, b) && AtomLe(b, a) ==> a == b
    ensures AtomLe(a, b) && AtomLe(b, c) ==> AtomLe(a, c)
  {
    if a.Str? && b.Str? {
      MultiSource.StrLeTotal(a.s, b.s);
      if c.Str? && AtomLe(a, b) && AtomLe(b, c) {
        MultiSource.StrLeTransitive(a.s, b.s, c.s);
      }
    }
  }

  lemma {:induction false} KeyTotal(a: seq<Atom>, b: seq<Atom>)
    requires |a| == |b|
    ensures KeyLe(a, b) || KeyLe(b, a)
    ensures KeyLe(a, b) && KeyLe(b, a) ==> a == b
  {
    if a != [] {
      AtomOrder(a[0], b[0], a[0]);
      KeyTotal(a[1..], b[1..]);
      assert a == [a[0]] + a[1..] && b == [b[0]] + b[1..];
    }
  }

  lemma {:induction false} KeyTransitive(a: seq<Atom>, b: seq<Atom>, c: seq<Atom>)
    requires |a| == |b| == |c| && KeyLe(a, b) && KeyLe(b, c)
    ensures KeyLe(a, c)
  {
    if a != [] {
      AtomOrder(a[0], b[0], c[0]);
      AtomOrder(b[0], a[0], c[0]);
      if a[0] == b[0] && b[0] == c[0] {
        KeyTransitive(a[1..], b[1..], c[1..]);
      }
    }
  }

  function Descending(x: Option<real>): Atom {
    match x
    case None => Null
    case Some(v) => Num(-v)
  }

  function Ascending(x: Option<string>): Atom {
    match x
    case None => Null
    case Some(v) => Str(v)
  }

  /** The ORDER BY clause within one benchmark, up to benchmark_version. */
  function SortKey(e: Row): seq<Atom> {
    [Num(-(e.observedAt as real)), Num(-(e.evaluatedAt as real)), Descending(e.normalized), Descending(e.raw),
     Ascending(e.modelName), Ascending(e.entryName), Str(e.url), Str(e.confidence), Str(e.version)]
  }

  /** The rows DISTINCT ON (benchmark_id) chooses from. */
  function Candidates(t: Table, benchmark: string): set<RowId> {
    set k | k in t && k.benchmark == benchmark && t[k].normalized.Some?
  }

  ghost predicate IsFirst(t: Table, ks: set<RowId>, k: RowId) {
    k in ks && k in t && forall j :: j in ks && j in t ==> KeyLe(SortKey(t[k]), SortKey(t[j]))
  }

  /** Among evidence of one benchmark the order is decided before any tie can remain. */
  lemma {:induction false} FirstExists(t: Table, ks: set<RowId>) returns (k: RowId)
    requires ks != {} && forall j :: j in ks ==> j in t
    ensures IsFirst(t, ks, k)
  {
    var x :| x in ks;
    var rest := ks - {x};
    assert ks == rest + {x};
    KeyTotal(SortKey(t[x]), SortKey(t[x]));
    if rest == {} {
      return x;
    }
    k := FirstExists(t, rest);
    KeyTotal(SortKey(t[x]), SortKey(t[k]));
    if KeyLe(SortKey(t[x]), SortKey(t[k])) {
      forall j | j in rest
        ensures KeyLe(SortKey(t[x]), SortKey(t[j]))
      {
        KeyTransitive(SortKey(t[x]), SortKey(t[k]), SortKey(t[j]));
      }
      k := x;
    }
  }

  /** The active row of a benchmark exists exactly when it has scored evidence, and is unique. */
  lemma ActiveIsUnique(t: Table, benchmark: string)
    requires WellKeyed(t)
    ensures Candidates(t, benchmark) == {} <==> forall k :: !IsFirst(t, Candidates(t, benchmark), k)
    ensures forall j, k :: IsFirst(t, Candidates(t, benchmark), j) && IsFirst(t, Candidates(t, benchmark), k) ==> j == k
  {
    var ks := Candidates(t, benchmark);
    if ks != {} {
      var k := FirstExists(t, ks);
    }
    forall j, k | IsFirst(t, ks, j) && IsFirst(t, ks, k)
      ensures j == k
    {
      KeyTotal(SortKey(t[j]), SortKey(t[k]));
      assert SortKey(t[j])[8] == Str(t[j].version) && SortKey(t[k])[8] == Str(t[k].version);
    }
  }

  /** GetActiveBenchmarkScores: the chosen row of every benchmark that has one. */
  ghost function Active(t: Table): map<string, Row> {
    map b | b in (set k | k in t && t[k].normalized.Some? :: k.benchmark) ::
      t[TheFirst(t, b)]
  }

  ghost function TheFirst(t: Table, benchmark: string): (k: RowId)
    requires exists k :: k in t && t[k].normalized.Some? && k.benchmark == benchmark
    ensures IsFirst(t, Candidates(t, benchmark), k)
  {
    assert Candidates(t, benchmark) != {} by {
      var k :| k in t && t[k].normalized.Some? && k.benchmark == benchmark;
      assert k in Candidates(t, benchmark);
    }
    assert exists k :: IsFirst(t, Candidates(t, benchmark), k) by {
      var k := FirstExists(t, Candidates(t, benchmark));
    }
    var k :| IsFirst(t, Candidates(t, benchmark), k);
    k
  }

  /** x sorts before y by its text, ascending, missing text last, else by what follows. */
  predicate TextFirst(x: Option<string>, y: Option<string>, rest: bool) {
    if x == y then rest
    else y.None? || (x.Some? && MultiSource.StrLe(x.value, y.value))
  }

  /** The text columns that break ties, in turn: names of model and entry, address, confidence, version. */
  predicate TextsFirst(x: Row, y: Row) {
    TextFirst(x.modelName, y.modelName,
      TextFirst(x.entryName, y.entryName,
        TextFirst(Some(x.url), Some(y.url),
          TextFirst(Some(x.confidence), Some(y.confidence), MultiSource.StrLe(x.version, y.version)))))
  }

  /** A larger number comes first, a missing one last. */
  predicate NumberFirst(x: Option<real>, y: Option<real>, rest: bool) {
    if x == y then rest else y.None? || (x.Some? && x.value > y.value)
  }

  /** x is preferred to y: observed later, or then evaluated later, or then scored higher, or then with the
      higher raw score, or then by its texts. */
  predicate Preferred(x: Row, y: Row) {
    if x.observedAt != y.observedAt then x.observedAt > y.observedAt
    else if x.evaluatedAt != y.evaluatedAt then x.evaluatedAt > y.evaluatedAt
    else NumberFirst(x.normalized, y.normalized, NumberFirst(x.raw, y.raw, TextsFirst(x, y)))
  }

  lemma KeyLeStep(a: seq<Atom>, b: seq<Atom>)
    requires |a| == |b| && a != []
    ensures KeyLe(a, b) <==> if a[0] == b[0] then KeyLe(a[1..], b[1..]) else AtomLe(a[0], b[0])
  {
    AtomOrder(a[0], b[0], a[0]);
  }

  /** The last columns of the key. */
  lemma LastTextKey(x: Row, y: Row)
    ensures KeyLe(SortKey(x)[6..], SortKey(y)[6..]) <==>
            TextFirst(Some(x.url), Some(y.url),
              TextFirst(Some(x.confidence), Some(y.confidence), MultiSource.StrLe(x.version, y.version)))
  {
    var a, b := SortKey(x)[6..], SortKey(y)[6..];
    assert a == [Str(x.url), Str(x.confidence), Str(x.version)] && b == [Str(y.url), Str(y.confidence), Str(y.version)];
    KeyLeStep(a, b);
    KeyLeStep(a[1..], b[1..]);
    KeyLeStep(a[1..][1..], b[1..][1..]);
    MultiSource.StrLeTotal(x.version, y.version);
  }

  lemma TextKey(x: Row, y: Row)
    ensures KeyLe(SortKey(x)[4..], SortKey(y)[4..]) <==> TextsFirst(x, y)
  {
    var a, b := SortKey(x), SortKey(y);
    KeyLeStep(a[4..], b[4..]);
    assert a[4..][1..] == a[5..] && b[4..][1..] == b[5..];
    KeyLeStep(a[5..], b[5..]);
    assert a[5..][1..] == a[6..] && b[5..][1..] == b[6..];
    LastTextKey(x, y);
  }

  lemma NumberKey(x: Row, y: Row)
    ensures KeyLe(SortKey(x)[2..], SortKey(y)[2..]) <==>
            NumberFirst(x.normalized, y.normalized, NumberFirst(x.raw, y.raw, KeyLe(SortKey(x)[4..], SortKey(y)[4..])))
  {
    var a, b := SortKey(x), SortKey(y);
    KeyLeStep(a[2..], b[2..]);
    assert a[2..][1..] == a[3..] && b[2..][1..] == b[3..];
    KeyLeStep(a[3..], b[3..]);
    assert a[3..][1..] == a[4..] && b[3..][1..] == b[4..];
  }

  /** The sort key orders rows by preference. */
  lemma KeyIsPreference(x: Row, y: Row)
    ensures KeyLe(SortKey(x), SortKey(y)) <==> Preferred(x, y)
  {
    var a, b := SortKey(x), SortKey(y);
    KeyLeStep(a, b);
    KeyLeStep(a[1..], b[1..]);
    assert a[1..][1..] == a[2..] && b[1..][1..] == b[2..];
    NumberKey(x, y);
    TextKey(x, y);
  }

  /** The active row of a benchmark is scored evidence for it, preferred to all of it. */
  lemma ActiveIsPreferred(t: Table, b: string, k: RowId)
    requires WellKeyed(t) && b in Active(t) && k in t && t[k].benchmark == b && t[k].normalized.Some?
    ensures var x := Active(t)[b];
            && (exists j :: j in t && t[j] == x) && x.benchmark == b && x.normalized.Some?
            && Preferred(x, t[k]) && (Preferred(t[k], x) ==> t[k] == x)
  {
    var f := TheFirst(t, b);
    KeyIsPreference(t[f], t[k]);
    KeyIsPreference(t[k], t[f]);
    KeyTotal(SortKey(t[f]), SortKey(t[k]));
    assert SortKey(t[f])[8] == Str(t[f].version) && SortKey(t[k])[8] == Str(t[k].version);
  }
}
