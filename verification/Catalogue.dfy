/** The paging walk that collects the whole model catalogue (frontend/lib/api.ts). */
module Catalogue {
  import opened Prices

  datatype Model = Model(id: string, body: int)

  /** What one page request comes back with; total is the parsed X-Total-Count header. */
  datatype Answer = Failed | Page(models: seq<Model>, total: Option<int>)

  datatype Outcome = Got(models: seq<Model>) | FetchError | Incomplete

  const MAX_PAGES: nat := 100
  const PER_PAGE: nat := 200

  /** Math.floor(total * 0.005) */
  function Tolerance(total: nat): nat {
    total / 200
  }

  predicate HasId(models: seq<Model>, id: string) {
    exists i :: 0 <= i < |models| && models[i].id == id
  }

  predicate DistinctIds(models: seq<Model>) {
    forall i, j :: 0 <= i < j < |models| ==> models[i].id != models[j].id
  }

  /** An insertion-ordered Map keyed by id: the first model of an id stays. */
  function Collect(acc: seq<Model>, batch: seq<Model>): seq<Model> {
    if batch == [] then acc
    else
      var a, m := Collect(acc, batch[..|batch| - 1]), batch[|batch| - 1];
      if HasId(a, m.id) then a else a + [m]
  }

  function Known(a: Answer): Option<nat> {
    if a.Page? && a.total.Some? && a.total.value > 0 then Some(a.total.value) else None
  }

  predicate Enough(acc: seq<Model>, total: Option<nat>) {
    total.Some? && |acc| >= total.value
  }

  /** The verdict after the last fetched page. */
  function Verdict(acc: seq<Model>, total: Option<nat>): Outcome {
    if total.Some? && |acc| < total.value && total.value - |acc| > Tolerance(total.value) then Incomplete
    else Got(acc)
  }

  /** The first answer carries a total that can be used. */
  predicate Announces(a: Answer) {
    a.Page? && a.total.Some? && a.total.value > 0
  }

  /** The models of the first n answers, one after the other. */
  function Fetched(pages: nat -> Answer, n: nat): seq<Model> {
    if n == 0 then [] else Fetched(pages, n - 1) + if pages(n).Page? then pages(n).models else []
  }

  /** The model is listed, and no other model is listed under its id before it. */
  predicate IsFirstOfId(list: seq<Model>, m: Model) {
    exists i :: 0 <= i < |list| && list[i] == m && forall j :: 0 <= j < i ==> list[j].id != m.id
  }

  lemma {:induction false} CollectInParts(acc: seq<Model>, a: seq<Model>, b: seq<Model>)
    ensures Collect(Collect(acc, a), b) == Collect(acc, a + b)
  {
    if b == [] {
      assert a + b == a;
    } else {
      var n := |b| - 1;
      CollectInParts(acc, a, b[..n]);
      assert (a + b)[..|a| + n] == a + b[..n];
    }
  }

  /** Collecting a list keeps the first model of every id, and nothing else. */
  lemma {:induction false} CollectKeepsFirst(list: seq<Model>, m: Model)
    ensures m in Collect([], list) <==> IsFirstOfId(list, m)
    ensures HasId(Collect([], list), m.id) <==> HasId(list, m.id)
  {
    if list != [] {
      var n := |list| - 1;
      CollectKeepsFirst(list[..n], m);
      CollectKeepsFirst(list[..n], list[n]);
      assert list == list[..n] + [list[n]];
      FirstOneMore(list[..n], list[n], m);
      IdOneMore(list[..n], list[n], m.id);
      IdOneMore(Collect([], list[..n]), list[n], m.id);
    }
  }

  lemma FirstOneMore(list: seq<Model>, x: Model, m: Model)
    ensures IsFirstOfId(list + [x], m) <==> IsFirstOfId(list, m) || (x == m && !HasId(list, x.id))
  {
    var more := list + [x];
    assert more[|list|] == x && forall i :: 0 <= i < |list| ==> more[i] == list[i];
    if i :| 0 <= i < |list| && list[i] == m && forall j :: 0 <= j < i ==> list[j].id != m.id {
      assert more[i] == m;
    }
  }

  lemma IdOneMore(list: seq<Model>, x: Model, id: string)
    ensures HasId(list + [x], id) <==> HasId(list, id) || x.id == id
  {
    var more := list + [x];
    assert more[|list|] == x && forall i :: 0 <= i < |list| ==> more[i] == list[i];
    if i :| 0 <= i < |list| && list[i].id == id {
      assert more[i].id == id;
    }
  }

  /** The shortfall that is let pass is at most a two-hundredth of the total. */
  lemma VerdictIs(acc: seq<Model>, total: Option<nat>)
    ensures Verdict(acc, total) == if total.Some? && 200 * (total.value - |acc|) > total.value then Incomplete else Got(acc)
  {
  }

  /** The models are the first of each id in the list. */
  ghost predicate HoldsFirstOfEach(models: seq<Model>, list: seq<Model>) {
    forall m :: m in models <==> IsFirstOfId(list, m)
  }

  function Walk(pages: nat -> Answer, page: nat, acc: seq<Model>, total: Option<nat>): Outcome
    requires 1 <= page <= MAX_PAGES
    decreases MAX_PAGES - page
  {
    match pages(page)
    case Failed => FetchError
    case Page(batch, _) =>
      var t := if page == 1 then Known(pages(1)) else total;
      var a := Collect(acc, batch);
      if batch == [] || Enough(a, t) || page >= MAX_PAGES then Verdict(a, t)
      else Walk(pages, page + 1, a, t)
  }

  lemma {:induction false} WalkCollects(pages: nat -> Answer, page: nat, acc: seq<Model>, total: Option<nat>) returns (n: nat)
    requires 1 <= page <= MAX_PAGES && acc == Collect([], Fetched(pages, page - 1))
    ensures var r := Walk(pages, page, acc, total);
            r.Got? ==> page <= n <= MAX_PAGES && r.models == Collect([], Fetched(pages, n))
    decreases MAX_PAGES - page
  {
    n := page;
    if pages(page).Page? {
      var t, a := if page == 1 then Known(pages(1)) else total, Collect(acc, pages(page).models);
      GatherOne(pages, page, acc);
      if Walk(pages, page, acc, total) != Verdict(a, t) {
        n := WalkCollects(pages, page + 1, a, t);
      }
    }
  }

  lemma GatherOne(pages: nat -> Answer, n: nat, acc: seq<Model>)
    requires n > 0 && pages(n).Page? && acc == Collect([], Fetched(pages, n - 1))
    ensures Collect(acc, pages(n).models) == Collect([], Fetched(pages, n))
  {
    CollectInParts([], Fetched(pages, n - 1), pages(n).models);
  }

  /** What a walk returns is the first model of every id that some number of answers listed. */
  lemma WalkKeepsFirst(pages: nat -> Answer)
    ensures var r := Walk(pages, 1, [], None);
            r.Got? ==> exists n :: 1 <= n <= 100 && HoldsFirstOfEach(r.models, Fetched(pages, n))
  {
    var n := WalkCollects(pages, 1, [], None);
    forall m
      ensures m in Collect([], Fetched(pages, n)) <==> IsFirstOfId(Fetched(pages, n), m)
    {
      CollectKeepsFirst(Fetched(pages, n), m);
    }
    assert HoldsFirstOfEach(Collect([], Fetched(pages, n)), Fetched(pages, n));
  }

  lemma {:induction false} WalkIgnores(pages: nat -> Answer, pages': nat -> Answer, page: nat, p: nat, acc: seq<Model>,
                                       total: Option<nat>)
    requires 1 <= page <= p <= MAX_PAGES && forall q :: 1 <= q <= p ==> pages(q) == pages'(q)
    requires acc == Collect([], Fetched(pages, page - 1)) && (page > 1 ==> total == Known(pages(1)))
    requires Enough(Collect([], Fetched(pages, p)), Known(pages(1)))
    ensures Walk(pages, page, acc, total) == Walk(pages', page, acc, total)
    decreases p - page
  {
    assert pages(page) == pages'(page) && pages(1) == pages'(1);
    if pages(page).Page? {
      var a, t := Collect(acc, pages(page).models), Known(pages(1));
      GatherOne(pages, page, acc);
      if page < p {
        WalkIgnores(pages, pages', page + 1, p, a, t);
      } else {
        assert Enough(a, t);
      }
    }
  }

  /** A walk that has collected the announced total asks for nothing more: what later pages would answer
      does not matter. */
  lemma EnoughIsEnough(pages: nat -> Answer, pages': nat -> Answer, p: nat)
    requires 1 <= p <= 100 && forall q :: 1 <= q <= p ==> pages(q) == pages'(q)
    requires Announces(pages(1)) && |Collect([], Fetched(pages, p))| >= pages(1).total.value
    ensures Walk(pages, 1, [], None) == Walk(pages', 1, [], None)
  {
    WalkIgnores(pages, pages', 1, p, [], None);
  }

  method FetchAllModelsOnce(pages: nat -> Answer) returns (r: Outcome, fetched: nat)
    ensures r == Walk(pages, 1, [], None)
    ensures 1 <= fetched <= 100
    ensures r.Got? ==> DistinctIds(r.models) && exists n :: 1 <= n <= 100 && HoldsFirstOfEach(r.models, Fetched(pages, n))
    ensures r.Got? && Announces(pages(1)) ==> 200 * (pages(1).total.value - |r.models|) <= pages(1).total.value
    ensures r == Incomplete ==> Announces(pages(1))
  {
    var byId: seq<Model> := [];
    var page := 1;
    var total: Option<nat> := None;
    while !Enough(byId, total)
      invariant 1 <= page <= MAX_PAGES && DistinctIds(byId) && !Enough(byId, total)
      invariant total == if page == 1 then None else Known(pages(1))
      invariant Walk(pages, page, byId, total) == Walk(pages, 1, [], None)
      decreases MAX_PAGES - page
    {
      var answer := pages(page);
      if answer.Failed? {
        return FetchError, page;
      }
      if page == 1 && answer.total.Some? && answer.total.value > 0 {
        total := Some(answer.total.value);
      }
      byId := CollectPage(byId, answer.models);
      if |answer.models| == 0 || Enough(byId, total) || page >= MAX_PAGES {
        break;
      }
      page := page + 1;
    }
    fetched := page;
    r := Verdict(byId, total);
    VerdictIs(byId, total);
    WalkKeepsFirst(pages);
  }

  method CollectPage(acc: seq<Model>, batch: seq<Model>) returns (a: seq<Model>)
    requires DistinctIds(acc)
    ensures a == Collect(acc, batch) && DistinctIds(a)
  {
    a := acc;
    for i := 0 to |batch|
      invariant a == Collect(acc, batch[..i]) && DistinctIds(a)
    {
      assert batch[..i + 1][..i] == batch[..i];
      if !HasId(a, batch[i].id) {
        a := a + [batch[i]];
      }
    }
    assert batch[..|batch|] == batch;
  }

  /** One retry, and only of an incomplete walk; the second walk may see other pages. */
  method FetchAllModels(first: nat -> Answer, second: nat -> Answer) returns (r: Outcome, fetched: nat)
    ensures 1 <= fetched <= 200
    ensures r == if Walk(first, 1, [], None) == Incomplete then Walk(second, 1, [], None) else Walk(first, 1, [], None)
    ensures r.Got? ==> DistinctIds(r.models)
  {
    r, fetched := FetchAllModelsOnce(first);
    if r == Incomplete {
      var n;
      r, n := FetchAllModelsOnce(second);
      fetched := fetched + n;
    }
  }

  // ---------------------------------------------------------------- a stable catalogue

  function Min(a: nat, b: nat): nat {
    if a < b then a else b
  }

  /** The backend serves slices of 200 of one unchanging list. */
  ghost predicate Serves(pages: nat -> Answer, list: seq<Model>) {
    forall p :: 1 <= p <= MAX_PAGES ==>
      && pages(p).Page?
      && pages(p).models == list[Min(PER_PAGE * (p - 1), |list|)..Min(PER_PAGE * p, |list|)]
  }

  lemma {:induction false} CollectNew(acc: seq<Model>, batch: seq<Model>)
    requires DistinctIds(acc + batch)
    ensures Collect(acc, batch) == acc + batch
  {
    if batch != [] {
      var n := |batch| - 1;
      assert acc + batch == (acc + batch[..n]) + [batch[n]];
      assert DistinctIds(acc + batch[..n]) by {
        assert forall i :: 0 <= i < |acc + batch[..n]| ==> (acc + batch[..n])[i] == (acc + batch)[i];
      }
      CollectNew(acc, batch[..n]);
      assert (acc + batch)[|acc| + n] == batch[n];
      assert forall i :: 0 <= i < |acc| + n ==> (acc + batch)[i] == (acc + batch[..n])[i];
    } else {
      assert acc + batch == acc;
    }
  }

  /** What a walk over a stable list answers when the header announces this total, or none. */
  function Answered(list: seq<Model>, total: Option<nat>): Outcome {
    if total.Some? && 200 * (total.value - |list|) > total.value then Incomplete else Got(list)
  }

  /** One page of a walk over a stable list. */
  lemma StableStep(pages: nat -> Answer, list: seq<Model>, page: nat, total: Option<nat>)
    requires 1 <= page <= MAX_PAGES && Serves(pages, list) && DistinctIds(list)
    requires page > 1 ==> total == Known(pages(1))
    ensures var lo, hi, t := Min(PER_PAGE * (page - 1), |list|), Min(PER_PAGE * page, |list|), Known(pages(1));
            Walk(pages, page, list[..lo], total) ==
            if lo == hi || Enough(list[..hi], t) || page >= MAX_PAGES then Answered(list[..hi], t)
            else Walk(pages, page + 1, list[..hi], t)
  {
    StablePage(pages, list, page);
    VerdictIs(list[..Min(PER_PAGE * page, |list|)], Known(pages(1)));
  }

  /** A walk over a stable list stops only at its end. */
  lemma StableStop(list: seq<Model>, page: nat, t: Option<nat>)
    requires 1 <= page <= MAX_PAGES && |list| <= PER_PAGE * MAX_PAGES && (t.Some? ==> |list| <= t.value)
    requires var lo, hi := Min(PER_PAGE * (page - 1), |list|), Min(PER_PAGE * page, |list|);
             lo == hi || Enough(list[..hi], t) || page >= MAX_PAGES
    ensures list[..Min(PER_PAGE * page, |list|)] == list
  {
  }

  lemma {:induction false} StableWalk(pages: nat -> Answer, list: seq<Model>, page: nat, total: Option<nat>)
    requires 1 <= page <= MAX_PAGES && Serves(pages, list) && DistinctIds(list) && |list| <= PER_PAGE * MAX_PAGES
    requires Known(pages(1)).Some? ==> |list| <= Known(pages(1)).value
    requires page > 1 ==> total == Known(pages(1))
    ensures Walk(pages, page, list[..Min(PER_PAGE * (page - 1), |list|)], total) == Answered(list, Known(pages(1)))
    decreases MAX_PAGES - page
  {
    var lo, hi, t := Min(PER_PAGE * (page - 1), |list|), Min(PER_PAGE * page, |list|), Known(pages(1));
    StableStep(pages, list, page, total);
    if lo == hi || Enough(list[..hi], t) || page >= MAX_PAGES {
      StableStop(list, page, t);
    } else {
      StableWalk(pages, list, page + 1, t);
    }
  }

  /** One page of a stable list extends the collected prefix. */
  lemma StablePage(pages: nat -> Answer, list: seq<Model>, page: nat)
    requires 1 <= page <= MAX_PAGES && Serves(pages, list) && DistinctIds(list)
    ensures var lo, hi := Min(PER_PAGE * (page - 1), |list|), Min(PER_PAGE * page, |list|);
            && pages(page).Page? && pages(page).models == list[lo..hi]
            && Collect(list[..lo], pages(page).models) == list[..hi]
  {
    var lo, hi := Min(PER_PAGE * (page - 1), |list|), Min(PER_PAGE * page, |list|);
    assert list[..hi] == list[..lo] + list[lo..hi];
    CollectNew(list[..lo], list[lo..hi]);
  }

  /** A duplicate-free list of at most 20000 models served in slices of 200 comes back whole and in order
      when no total is announced. When a total is announced that the list does not exceed, it comes back
      whole if and only if at most a two-hundredth of the total is missing. */
  lemma StableCatalogueIsComplete(pages: nat -> Answer, list: seq<Model>)
    requires Serves(pages, list) && DistinctIds(list) && |list| <= 20000
    requires Announces(pages(1)) ==> |list| <= pages(1).total.value
    ensures var r := Walk(pages, 1, [], None);
            if Announces(pages(1)) && 200 * (pages(1).total.value - |list|) > pages(1).total.value then r == Incomplete
            else r == Got(list)
  {
    StableWalk(pages, list, 1, None);
    assert list[..0] == [];
  }
}
