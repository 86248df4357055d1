/** Tolerant comparison of a scrape with the stored prices (internal/diff/diff.go). */
module DiffEngine {
  import opened Prices

  datatype StoredModel = StoredModel(id: int, slug: string)

  datatype StoredPrice = StoredPrice(modelId: int, input: real, output: real)

  datatype ScrapedModel = ScrapedModel(
    slug: string, input: real, output: real, source: string, underlying: string)

  datatype PriceDiff = PriceDiff(
    slug: string, field: PriceField, oldValue: real, newValue: real, pctChange: real,
    source: string, underlying: string, needsReview: bool)

  /** The two stored costs of one model. */
  datatype Costs = Costs(input: real, output: real)

  function CostOf(c: Costs, f: PriceField): real {
    match f
    case Input => c.input
    case Output => c.output
  }

  function Reported(m: ScrapedModel, f: PriceField): real {
    match f
    case Input => m.input
    case Output => m.output
  }

  function IdToSlug(models: seq<StoredModel>): map<int, string> {
    if models == [] then map[]
    else IdToSlug(models[..|models| - 1])[models[|models| - 1].id := models[|models| - 1].slug]
  }

  /** Stored costs by slug; rows of unknown models are dropped, later rows win. */
  function SlugIndex(stored: seq<StoredPrice>, ids: map<int, string>): map<string, Costs> {
    if stored == [] then map[]
    else
      var rest, p := SlugIndex(stored[..|stored| - 1], ids), stored[|stored| - 1];
      if p.modelId in ids then rest[ids[p.modelId] := Costs(p.input, p.output)] else rest
  }

  function NewModelDiff(m: ScrapedModel, f: PriceField): PriceDiff {
    PriceDiff(m.slug, f, 0.0, Reported(m, f), 1.0, m.source, m.underlying, false)
  }

  function FieldDiff(m: ScrapedModel, f: PriceField, oldVal: real): Option<PriceDiff> {
    var newVal := Reported(m, f);
    if Abs(newVal - oldVal) < EPSILON then None
    else
      var pct := if Abs(oldVal) < EPSILON then 1.0 else (newVal - oldVal) / oldVal;
      Some(PriceDiff(m.slug, f, oldVal, newVal, pct, m.source, m.underlying,
                     Abs(pct) > DISCREPANCY_THRESHOLD))
  }

  /** The diff, if any, for one field of one scraped model. */
  function DiffOne(index: map<string, Costs>, m: ScrapedModel, f: PriceField): Option<PriceDiff> {
    if m.slug in index then FieldDiff(m, f, CostOf(index[m.slug], f))
    else if Reported(m, f) > EPSILON then Some(NewModelDiff(m, f))
    else None
  }

  function Listed(d: Option<PriceDiff>): seq<PriceDiff> {
    match d
    case None => []
    case Some(x) => [x]
  }

  function DiffModel(index: map<string, Costs>, m: ScrapedModel): seq<PriceDiff> {
    Listed(DiffOne(index, m, Input)) + Listed(DiffOne(index, m, Output))
  }

  function DiffAll(index: map<string, Costs>, incoming: seq<ScrapedModel>): seq<PriceDiff> {
    if incoming == [] then []
    else DiffAll(index, incoming[..|incoming| - 1]) + DiffModel(index, incoming[|incoming| - 1])
  }

  /** The first half of Diff: the stored row of every slug. */
  method IndexBySlug(stored: seq<StoredPrice>, storedModels: seq<StoredModel>) returns (slugToPrice: map<string, Costs>)
    ensures slugToPrice == SlugIndex(stored, IdToSlug(storedModels))
  {
    if |stored| == 0 || |storedModels| == 0 {
      NoModelsNoIndex(stored, storedModels);
      return map[];
    }
    var idToSlug: map<int, string> := map[];
    for i := 0 to |storedModels|
      invariant idToSlug == IdToSlug(storedModels[..i])
    {
      assert storedModels[..i + 1][..i] == storedModels[..i];
      idToSlug := idToSlug[storedModels[i].id := storedModels[i].slug];
    }
    assert storedModels[..|storedModels|] == storedModels;
    slugToPrice := map[];
    for i := 0 to |stored|
      invariant slugToPrice == SlugIndex(stored[..i], idToSlug)
    {
      assert stored[..i + 1][..i] == stored[..i];
      var p := stored[i];
      if p.modelId in idToSlug {
        slugToPrice := slugToPrice[idToSlug[p.modelId] := Costs(p.input, p.output)];
      }
    }
    assert stored[..|stored|] == stored;
  }

  /** The loop body of Diff. */
  method AppendModel(diffs: seq<PriceDiff>, slugToPrice: map<string, Costs>, s: ScrapedModel) returns (r: seq<PriceDiff>)
    ensures r == diffs + DiffModel(slugToPrice, s)
  {
    r := diffs;
    if s.slug !in slugToPrice {
      if s.input > EPSILON {
        r := r + [NewModelDiff(s, Input)];
      }
      if s.output > EPSILON {
        r := r + [NewModelDiff(s, Output)];
      }
      return;
    }
    var current := slugToPrice[s.slug];
    var d := FieldDiff(s, Input, current.input);
    if d.Some? {
      r := r + [d.value];
    }
    d := FieldDiff(s, Output, current.output);
    if d.Some? {
      r := r + [d.value];
    }
  }

  method Diff(stored: seq<StoredPrice>, storedModels: seq<StoredModel>, incoming: seq<ScrapedModel>)
    returns (diffs: seq<PriceDiff>)
    ensures diffs == DiffAll(SlugIndex(stored, IdToSlug(storedModels)), incoming)
  {
    var slugToPrice := IndexBySlug(stored, storedModels);
    diffs := [];
    for i := 0 to |incoming|
      invariant diffs == DiffAll(slugToPrice, incoming[..i])
    {
      assert incoming[..i + 1][..i] == incoming[..i];
      diffs := AppendModel(diffs, slugToPrice, incoming[i]);
    }
    assert incoming[..|incoming|] == incoming;
  }

  /** The last model row of an id names its slug. */
  predicate Names(models: seq<StoredModel>, id: int, slug: string) {
    exists i :: 0 <= i < |models| && models[i] == StoredModel(id, slug) && forall j :: i < j < |models| ==> models[j].id != id
  }

  /** The last price row of a slug, over all ids that name it, holds the costs. */
  predicate LastRow(stored: seq<StoredPrice>, ids: map<int, string>, slug: string, c: Costs) {
    exists i :: 0 <= i < |stored| && IsLastRow(stored, ids, slug, i) && c == Costs(stored[i].input, stored[i].output)
  }

  predicate IsLastRow(stored: seq<StoredPrice>, ids: map<int, string>, slug: string, i: nat)
    requires i < |stored|
  {
    && stored[i].modelId in ids && ids[stored[i].modelId] == slug
    && forall j :: i < j < |stored| ==> stored[j].modelId !in ids || ids[stored[j].modelId] != slug
  }

  lemma {:induction false} IdsAreLast(models: seq<StoredModel>, id: int, slug: string)
    ensures id in IdToSlug(models) && IdToSlug(models)[id] == slug <==> Names(models, id, slug)
  {
    if models != [] {
      var n := |models| - 1;
      IdsAreLast(models[..n], id, slug);
      assert models == models[..n] + [models[n]];
      if Names(models[..n], id, slug) && models[n].id != id {
        var i :| 0 <= i < n && models[..n][i] == StoredModel(id, slug) && forall j :: i < j < n ==> models[..n][j].id != id;
        assert models[i] == StoredModel(id, slug);
      }
      if Names(models, id, slug) && models[n].id != id {
        var i :| 0 <= i < |models| && models[i] == StoredModel(id, slug) && forall j :: i < j < |models| ==> models[j].id != id;
        assert models[..n][i] == StoredModel(id, slug);
      }
    }
  }

  /** The index holds, by slug, the last price row whose model is known. */
  lemma {:induction false} IndexIsLast(stored: seq<StoredPrice>, ids: map<int, string>, slug: string, c: Costs)
    ensures slug in SlugIndex(stored, ids) && SlugIndex(stored, ids)[slug] == c <==> LastRow(stored, ids, slug, c)
  {
    if stored != [] {
      var n := |stored| - 1;
      IndexIsLast(stored[..n], ids, slug, c);
      assert stored == stored[..n] + [stored[n]];
      if stored[n].modelId in ids && ids[stored[n].modelId] == slug {
        assert IsLastRow(stored, ids, slug, n);
      } else {
        if i :| 0 <= i < n && IsLastRow(stored[..n], ids, slug, i) && c == Costs(stored[..n][i].input, stored[..n][i].output) {
          assert IsLastRow(stored, ids, slug, i);
        }
        if i :| 0 <= i < |stored| && IsLastRow(stored, ids, slug, i) && c == Costs(stored[i].input, stored[i].output) {
          assert IsLastRow(stored[..n], ids, slug, i) && stored[..n][i] == stored[i];
        }
      }
    }
  }

  lemma {:induction false} NoModelsNoIndex(stored: seq<StoredPrice>, models: seq<StoredModel>)
    requires stored == [] || models == []
    ensures SlugIndex(stored, IdToSlug(models)) == map[]
  {
    if stored != [] {
      NoModelsNoIndex(stored[..|stored| - 1], models);
    }
  }

  /** Exactly the fields that moved are reported, each with its stored and its reported value. */
  lemma DiffExact(index: map<string, Costs>, incoming: seq<ScrapedModel>, d: PriceDiff)
    ensures d in DiffAll(index, incoming) <==> exists i :: 0 <= i < |incoming| && IsMove(index, incoming[i], d)
  {
    DiffMembers(index, incoming, d);
    forall i | 0 <= i < |incoming|
      ensures DiffOne(index, incoming[i], d.field) == Some(d) <==> IsMove(index, incoming[i], d)
    {
      OneIsMove(index, incoming[i], d);
    }
  }

  /** What the model reports for the field, told by field. */
  predicate Reports(m: ScrapedModel, f: PriceField, x: real) {
    (f == Input ==> x == m.input) && (f == Output ==> x == m.output)
  }

  /** What is stored for the model's field; 0 when nothing is. */
  predicate Stores(index: map<string, Costs>, m: ScrapedModel, f: PriceField, x: real) {
    if m.slug !in index then x == 0.0
    else (f == Input ==> x == index[m.slug].input) && (f == Output ==> x == index[m.slug].output)
  }

  /** The diff says that this model's report moved a field by 1e-12 or more, or brought a new one above
      1e-12, and by which share of the stored value. */
  predicate IsMove(index: map<string, Costs>, m: ScrapedModel, d: PriceDiff) {
    && d.slug == m.slug && d.source == m.source && d.underlying == m.underlying
    && Reports(m, d.field, d.newValue) && Stores(index, m, d.field, d.oldValue)
    && var gain := d.newValue - d.oldValue;
       if m.slug !in index then d.newValue > 0.000000000001 && d.pctChange == 1.0 && !d.needsReview
       else
         && (gain >= 0.000000000001 || gain <= -0.000000000001)
         && (if -0.000000000001 < d.oldValue < 0.000000000001 then d.pctChange == 1.0
             else d.pctChange * d.oldValue == gain)
         && (d.needsReview <==> d.pctChange > 0.05 || d.pctChange < -0.05)
  }

  lemma OneIsMove(index: map<string, Costs>, m: ScrapedModel, d: PriceDiff)
    ensures DiffOne(index, m, d.field) == Some(d) <==> IsMove(index, m, d)
  {
    if m.slug in index {
      var o, n := CostOf(index[m.slug], d.field), Reported(m, d.field);
      if Abs(o) >= EPSILON {
        var pct := (n - o) / o;
        assert pct * o == n - o;
        assert d.pctChange * o == n - o ==> d.pctChange == pct by {
          OneQuotient(d.pctChange, pct, o);
        }
      }
    }
  }

  lemma OneQuotient(x: real, y: real, z: real)
    requires z != 0.0
    ensures x * z == y * z ==> x == y
  {
    if x != y {
      assert (x - y) * z != 0.0;
    }
  }

  lemma ModelMembers(index: map<string, Costs>, m: ScrapedModel, d: PriceDiff)
    ensures d in DiffModel(index, m) <==> DiffOne(index, m, d.field) == Some(d)
  {
    ListedHolds(DiffOne(index, m, Input), d);
    ListedHolds(DiffOne(index, m, Output), d);
  }

  lemma ListedHolds(x: Option<PriceDiff>, d: PriceDiff)
    ensures d in Listed(x) <==> x == Some(d)
  {
  }

  lemma {:induction false} DiffMembers(index: map<string, Costs>, incoming: seq<ScrapedModel>, d: PriceDiff)
    ensures d in DiffAll(index, incoming) <==>
            exists i :: 0 <= i < |incoming| && DiffOne(index, incoming[i], d.field) == Some(d)
  {
    if incoming != [] {
      var n := |incoming| - 1;
      DiffMembers(index, incoming[..n], d);
      ModelMembers(index, incoming[n], d);
      if i :| 0 <= i < n && DiffOne(index, incoming[..n][i], d.field) == Some(d) {
        assert incoming[i] == incoming[..n][i];
      }
      if i :| 0 <= i < |incoming| && DiffOne(index, incoming[i], d.field) == Some(d) {
        if i < n {
          assert incoming[i] == incoming[..n][i];
        }
      }
    }
  }

  /** A stored model whose two costs are both within tolerance, or an unstored free model. */
  predicate Unchanged(index: map<string, Costs>, m: ScrapedModel) {
    if m.slug in index then
      && Abs(m.input - index[m.slug].input) < EPSILON
      && Abs(m.output - index[m.slug].output) < EPSILON
    else m.input <= EPSILON && m.output <= EPSILON
  }

  lemma ModelSilentIff(index: map<string, Costs>, m: ScrapedModel)
    ensures DiffModel(index, m) == [] <==> Unchanged(index, m)
  {
  }

  lemma {:induction false} SilentIff(index: map<string, Costs>, incoming: seq<ScrapedModel>)
    ensures DiffAll(index, incoming) == [] <==> forall i :: 0 <= i < |incoming| ==> Unchanged(index, incoming[i])
  {
    if incoming != [] {
      var n := |incoming| - 1;
      SilentIff(index, incoming[..n]);
      ModelSilentIff(index, incoming[n]);
      assert forall i :: 0 <= i < n ==> incoming[..n][i] == incoming[i];
    }
  }

  /** Review is asked for exactly when a stored price moved by more than five per cent of
      its old value, or came from (nearly) nothing; a new model never asks for it. */
  lemma ReviewIff(index: map<string, Costs>, m: ScrapedModel, f: PriceField)
    requires DiffOne(index, m, f).Some?
    ensures var d := DiffOne(index, m, f).value;
            d.needsReview <==>
              m.slug in index &&
              (Abs(d.oldValue) < EPSILON || Abs(d.newValue - d.oldValue) > DISCREPANCY_THRESHOLD * Abs(d.oldValue))
  {
    if m.slug in index {
      var o, n := CostOf(index[m.slug], f), Reported(m, f);
      if Abs(o) >= EPSILON {
        RelativeIff(DISCREPANCY_THRESHOLD, n - o, o);
        assert DiffOne(index, m, f).value.pctChange == (n - o) / o;
      }
    }
  }
}
