/** The tables behind the pipeline and the statements that change them
    (internal/reconciler/store.go, internal/review/store.go, internal/worker/store.go,
    migrations 000004 to 000006, 000008 and 000017). Each statement or transaction is atomic. */
module PriceStore {
  import opened Prices

  datatype RowKey = RowKey(model: int, source: int)

  datatype PriceRow = PriceRow(
    input: int, output: int, confidence: Confidence, confirmedAt: int,
    verifiedAt: Option<int>, underlying: Option<string>)

  /** The writer is not a column: it records which code path inserted the row. */
  datatype Writer = ByReconciler | ByOperator

  datatype HistoryRow = HistoryRow(
    key: RowKey, input: int, output: int, confirmedAt: int,
    underlying: Option<string>, writer: Writer)

  datatype Status = Pending | Resolved | Overridden

  /** A review_queue row; its id is its position. */
  datatype ReviewRow = ReviewRow(
    model: int, sourceA: int, sourceB: int, field: PriceField,
    valueA: int, valueB: int, delta: real, status: Status, resolvedAt: Option<int>)

  datatype Db = Db(
    models: map<string, int>, sources: map<string, int>,
    prices: map<RowKey, PriceRow>, history: seq<HistoryRow>, review: seq<ReviewRow>)

  function Column(r: PriceRow, f: PriceField): int {
    match f
    case Input => r.input
    case Output => r.output
  }

  /** Every column holds a value its type admits. */
  predicate InRange(db: Db) {
    forall k, f :: k in db.prices ==> -STEP_LIMIT < Column(db.prices[k], f) < STEP_LIMIT
  }

  /** The dedup index (model, source, confirmed_at, recorded_at); both times are equal. */
  predicate Recorded(history: seq<HistoryRow>, key: RowKey, now: int) {
    exists i :: 0 <= i < |history| && history[i].key == key && history[i].confirmedAt == now
  }

  /** INSERT ... ON CONFLICT DO NOTHING. */
  function Append(history: seq<HistoryRow>, row: HistoryRow): seq<HistoryRow> {
    if Recorded(history, row.key, row.confirmedAt) then history else history + [row]
  }

  /** The transaction of PublishPrice when it commits. */
  function Publish(db: Db, key: RowKey, input: real, output: real,
                   confidence: Confidence, underlying: string, now: int): Db
  {
    var i, o := ToSteps(input), ToSteps(output);
    db.(history := Append(db.history, HistoryRow(key, i, o, now, Some(underlying), ByReconciler)),
        prices := db.prices[key := PriceRow(i, o, confidence, now, Some(now), Some(underlying))])
  }

  predicate OpenDispute(review: seq<ReviewRow>, model: int, field: PriceField) {
    exists i :: 0 <= i < |review| && review[i].status == Pending
                && review[i].model == model && review[i].field == field
  }

  /** INSERT ... ON CONFLICT (model_id, field) WHERE status = 'pending' DO NOTHING. */
  function Flag(db: Db, model: int, a: int, b: int, field: PriceField,
                valueA: real, valueB: real, delta: real): Db
  {
    if OpenDispute(db.review, model, field) then db
    else db.(review := db.review +
      [ReviewRow(model, a, b, field, ToSteps(valueA), ToSteps(valueB), Abs(delta), Pending, None)])
  }

  predicate IsPending(db: Db, id: int) {
    0 <= id < |db.review| && db.review[id].status == Pending
  }

  /** The stored columns, or zeros when there is no row. */
  function Stored(db: Db, key: RowKey, f: PriceField): int {
    if key in db.prices then Column(db.prices[key], f) else 0
  }

  /** The transaction of Approve on a pending entry. */
  function Approve(db: Db, id: int, now: int): Db
    requires IsPending(db, id)
  {
    var r := db.review[id];
    var key := RowKey(r.model, r.sourceA);
    var i := if r.field == Input then r.valueA else Stored(db, key, Input);
    var o := if r.field == Output then r.valueA else Stored(db, key, Output);
    var (verified, under) :=
      if key in db.prices then (db.prices[key].verifiedAt, db.prices[key].underlying) else (None, None);
    db.(history := Append(db.history, HistoryRow(key, i, o, now, None, ByOperator)),
        prices := db.prices[key := PriceRow(i, o, High, now, verified, under)],
        review := db.review[id := r.(status := Resolved, resolvedAt := Some(now))])
  }

  function Reject(db: Db, id: int, now: int): Db
    requires IsPending(db, id)
  {
    db.(review := db.review[id := db.review[id].(status := Overridden, resolvedAt := Some(now))])
  }

  predicate Matched(db: Db, key: RowKey, source: string, slugs: seq<string>) {
    && source in db.sources && db.sources[source] == key.source
    && exists s :: s in slugs && s in db.models && db.models[s] == key.model
  }

  /** The bulk UPDATE of MarkVerified. */
  function Verify(db: Db, source: string, slugs: seq<string>, now: int): Db {
    db.(prices := map k | k in db.prices ::
          if Matched(db, k, source, slugs) then db.prices[k].(verifiedAt := Some(now)) else db.prices[k])
  }

  // ---------------------------------------------------------------- what the statements mean

  /** b has the row of the key, and holds the same rows as a otherwise. */
  ghost predicate OnlyRow(a: map<RowKey, PriceRow>, b: map<RowKey, PriceRow>, key: RowKey) {
    && key in b
    && forall k :: k != key ==> (k in b <==> k in a) && (k in a ==> b[k] == a[k])
  }

  /** The history grew by the row, unless the key already had a row of that time. */
  predicate Records(h: seq<HistoryRow>, h': seq<HistoryRow>, row: HistoryRow) {
    h' == if exists i :: 0 <= i < |h| && h[i].key == row.key && h[i].confirmedAt == row.confirmedAt then h else h + [row]
  }

  /** The column of a row, 0 when there is no row. */
  function Cell(prices: map<RowKey, PriceRow>, key: RowKey, f: PriceField): int {
    if key !in prices then 0
    else
      match f
      case Input => prices[key].input
      case Output => prices[key].output
  }

  /** A publish leaves both rounded prices, the confidence and the provider in the row, confirmed and
      verified now; history records the same columns, and nothing else changes. */
  ghost predicate Publishes(db: Db, db': Db, key: RowKey, input: real, output: real,
                            confidence: Confidence, underlying: string, now: int)
  {
    var i, o := ToSteps(input), ToSteps(output);
    && OnlyRow(db.prices, db'.prices, key)
    && Cell(db'.prices, key, Input) == i && Cell(db'.prices, key, Output) == o
    && db'.prices[key].confidence == confidence && db'.prices[key].underlying == Some(underlying)
    && db'.prices[key].confirmedAt == now && db'.prices[key].verifiedAt == Some(now)
    && Records(db.history, db'.history, HistoryRow(key, i, o, now, Some(underlying), ByReconciler))
    && db'.(prices := db.prices, history := db.history) == db
  }

  /** An entry for the model and field waits for an operator. */
  predicate HasOpenEntry(q: seq<ReviewRow>, model: int, field: PriceField) {
    exists i :: 0 <= i < |q| && q[i].status == Pending && q[i].model == model && q[i].field == field
  }

  /** The entry waits, with the first source beside the first value and the second beside the second. */
  predicate Disputes(e: ReviewRow, model: int, field: PriceField, a: int, valueA: real, b: int, valueB: real, delta: real) {
    && e.model == model && e.field == field && e.status == Pending && e.resolvedAt == None
    && e.sourceA == a && e.valueA == ToSteps(valueA) && e.sourceB == b && e.valueB == ToSteps(valueB)
    && e.delta >= 0.0 && (e.delta == delta || e.delta == -delta)
  }

  /** A flag appends one such entry, unless one is open for the model and field, and changes nothing else. */
  ghost predicate Flags(db: Db, db': Db, model: int, field: PriceField,
                        a: int, valueA: real, b: int, valueB: real, delta: real)
  {
    if HasOpenEntry(db.review, model, field) then db' == db
    else
      && |db'.review| == |db.review| + 1 && db'.review[..|db.review|] == db.review
      && Disputes(db'.review[|db.review|], model, field, a, valueA, b, valueB, delta)
      && db'.(review := db.review) == db
  }

  /** Only this entry of the queue changed, and only in its status, set now. */
  predicate Ends(q: seq<ReviewRow>, q': seq<ReviewRow>, id: int, status: Status, now: int) {
    && 0 <= id < |q| == |q'|
    && (forall i :: 0 <= i < |q| && i != id ==> q'[i] == q[i])
    && q'[id] == q[id].(status := status, resolvedAt := Some(now))
  }

  /** The first source's row holds the first value of the entry at High, keeps its other column, or has 0
      there when it is new, and no other row changed. */
  ghost predicate HoldsFirstValue(prices: map<RowKey, PriceRow>, prices': map<RowKey, PriceRow>, e: ReviewRow, now: int) {
    var key := RowKey(e.model, e.sourceA);
    && OnlyRow(prices, prices', key)
    && prices'[key].confidence == High && prices'[key].confirmedAt == now
    && (e.field == Input ==> Cell(prices', key, Input) == e.valueA && Cell(prices', key, Output) == Cell(prices, key, Output))
    && (e.field == Output ==> Cell(prices', key, Output) == e.valueA && Cell(prices', key, Input) == Cell(prices, key, Input))
    && (if key in prices
        then prices'[key].verifiedAt == prices[key].verifiedAt && prices'[key].underlying == prices[key].underlying
        else prices'[key].verifiedAt == None && prices'[key].underlying == None)
  }

  /** An approval does that, records both columns in history and resolves the entry. */
  ghost predicate Approves(db: Db, db': Db, id: int, now: int) {
    && Ends(db.review, db'.review, id, Resolved, now)
    && var e := db.review[id];
       var key := RowKey(e.model, e.sourceA);
       && HoldsFirstValue(db.prices, db'.prices, e, now)
       && Records(db.history, db'.history,
                  HistoryRow(key, Cell(db'.prices, key, Input), Cell(db'.prices, key, Output), now, None, ByOperator))
       && db'.models == db.models && db'.sources == db.sources
  }

  /** A rejection ends its entry and changes nothing else. */
  ghost predicate Rejects(db: Db, db': Db, id: int, now: int) {
    Ends(db.review, db'.review, id, Overridden, now) && db'.(review := db.review) == db
  }

  /** The row belongs to the named source and to a model with a listed slug. */
  predicate IsListed(db: Db, key: RowKey, source: string, slugs: seq<string>) {
    && source in db.sources && db.sources[source] == key.source
    && exists i :: 0 <= i < |slugs| && slugs[i] in db.models && db.models[slugs[i]] == key.model
  }

  /** The bulk stamp verifies exactly those rows now, and changes no other column. */
  ghost predicate StampsListed(db: Db, db': Db, source: string, slugs: seq<string>, now: int) {
    && db'.(prices := db.prices) == db && db'.prices.Keys == db.prices.Keys
    && forall k :: k in db.prices ==>
         && (IsListed(db, k, source, slugs) ==> db'.prices[k].verifiedAt == Some(now))
         && (!IsListed(db, k, source, slugs) ==> db'.prices[k].verifiedAt == db.prices[k].verifiedAt)
         && db'.prices[k].(verifiedAt := None) == db.prices[k].(verifiedAt := None)
  }

  lemma PublishPublishes(db: Db, key: RowKey, input: real, output: real, confidence: Confidence, underlying: string, now: int)
    ensures Publishes(db, Publish(db, key, input, output, confidence, underlying, now),
                      key, input, output, confidence, underlying, now)
  {
  }

  lemma FlagFlags(db: Db, model: int, a: int, b: int, field: PriceField, valueA: real, valueB: real, delta: real)
    ensures Flags(db, Flag(db, model, a, b, field, valueA, valueB, delta), model, field, a, valueA, b, valueB, delta)
  {
  }

  lemma ApproveApproves(db: Db, id: int, now: int)
    requires IsPending(db, id)
    ensures Approves(db, Approve(db, id, now), id, now)
  {
  }

  lemma VerifyStamps(db: Db, source: string, slugs: seq<string>, now: int)
    ensures StampsListed(db, Verify(db, source, slugs, now), source, slugs, now)
  {
    forall k | k in db.prices
      ensures Matched(db, k, source, slugs) <==> IsListed(db, k, source, slugs)
    {
      if x :| x in slugs && x in db.models && db.models[x] == k.model {
        var i :| 0 <= i < |slugs| && slugs[i] == x;
      }
    }
  }

  // ---------------------------------------------------------------- the stores

  datatype Outcome = Done | NotPending | Failed

  /** The database as the stores see it. `fail` stands for any error before the commit. */
  class PgStore {
    var models: map<string, int>
    var sources: map<string, int>
    var prices: map<RowKey, PriceRow>
    var history: seq<HistoryRow>
    var review: seq<ReviewRow>

    constructor (db: Db)
      ensures Tables() == db
    {
      models, sources, prices, history, review :=
        db.models, db.sources, db.prices, db.history, db.review;
    }

    function Tables(): Db
      reads this
    {
      Db(models, sources, prices, history, review)
    }

    method LookupModelID(slug: string, fail: bool) returns (id: Option<int>)
      ensures id == if fail || slug !in models then None else Some(models[slug])
    {
      id := if fail || slug !in models then None else Some(models[slug]);
    }

    method LookupSourceID(name: string, fail: bool) returns (id: Option<int>)
      ensures id == if fail || name !in sources then None else Some(sources[name])
    {
      id := if fail || name !in sources then None else Some(sources[name]);
    }

    method LookupCurrentPrice(key: RowKey, fail: bool)
      returns (input: real, output: real, found: bool, err: bool)
      ensures err == fail
      ensures found == (!fail && key in prices)
      ensures input == (if found then FromSteps(prices[key].input) else 0.0)
      ensures output == (if found then FromSteps(prices[key].output) else 0.0)
    {
      err := fail;
      found := !fail && key in prices;
      if found {
        input, output := FromSteps(prices[key].input), FromSteps(prices[key].output);
      } else {
        input, output := 0.0, 0.0;
      }
    }

    /** An out-of-range value aborts the transaction like any other error. */
    method PublishPrice(key: RowKey, input: real, output: real, confidence: Confidence,
                        underlying: string, now: int, fail: bool) returns (ok: bool)
      modifies this
      ensures ok == (!fail && Fits(input) && Fits(output))
      ensures Tables() == if ok then Publish(old(Tables()), key, input, output, confidence, underlying, now)
                          else old(Tables())
      ensures ok ==> Publishes(old(Tables()), Tables(), key, input, output, confidence, underlying, now)
    {
      PublishPublishes(Tables(), key, input, output, confidence, underlying, now);
      if fail || !Fits(input) || !Fits(output) {
        return false;
      }
      var i, o := ToSteps(input), ToSteps(output);
      history := Append(history, HistoryRow(key, i, o, now, Some(underlying), ByReconciler));
      prices := prices[key := PriceRow(i, o, confidence, now, Some(now), Some(underlying))];
      return true;
    }

    method FlagDiscrepancy(model: int, a: int, b: int, field: PriceField,
                           valueA: real, valueB: real, delta: real, fail: bool)
      modifies this
      ensures Tables() == if fail || !Fits(valueA) || !Fits(valueB) then old(Tables())
                          else Flag(old(Tables()), model, a, b, field, valueA, valueB, delta)
      ensures !fail && Fits(valueA) && Fits(valueB) ==>
                Flags(old(Tables()), Tables(), model, field, a, valueA, b, valueB, delta)
    {
      FlagFlags(Tables(), model, a, b, field, valueA, valueB, delta);
      if !fail && Fits(valueA) && Fits(valueB) && !OpenDispute(review, model, field) {
        review := review +
          [ReviewRow(model, a, b, field, ToSteps(valueA), ToSteps(valueB), Abs(delta), Pending, None)];
      }
    }

    method ApproveEntry(id: int, now: int, fail: bool) returns (r: Outcome)
      modifies this
      ensures r == (if fail then Failed else if IsPending(old(Tables()), id) then Done else NotPending)
      ensures Tables() == if r == Done then Approve(old(Tables()), id, now) else old(Tables())
      ensures r == Done ==> Approves(old(Tables()), Tables(), id, now)
    {
      if fail {
        return Failed;
      }
      if id < 0 || id >= |review| || review[id].status != Pending {
        return NotPending;
      }
      ApproveApproves(Tables(), id, now);
      var row := review[id];
      var key := RowKey(row.model, row.sourceA);
      var currInput, currOutput := 0, 0;
      if key in prices {
        currInput, currOutput := prices[key].input, prices[key].output;
      }
      var newInput, newOutput;
      match row.field {
        case Input => newInput, newOutput := row.valueA, currOutput;
        case Output => newInput, newOutput := currInput, row.valueA;
      }
      history := Append(history, HistoryRow(key, newInput, newOutput, now, None, ByOperator));
      if key in prices {
        prices := prices[key := prices[key].(input := newInput, output := newOutput,
                                             confirmedAt := now, confidence := High)];
      } else {
        prices := prices[key := PriceRow(newInput, newOutput, High, now, None, None)];
      }
      review := review[id := row.(status := Resolved, resolvedAt := Some(now))];
      return Done;
    }

    method RejectEntry(id: int, now: int, fail: bool) returns (r: Outcome)
      modifies this
      ensures r == (if fail then Failed else if IsPending(old(Tables()), id) then Done else NotPending)
      ensures Tables() == if r == Done then Reject(old(Tables()), id, now) else old(Tables())
      ensures r == Done ==> Rejects(old(Tables()), Tables(), id, now)
    {
      if fail {
        return Failed;
      }
      if id < 0 || id >= |review| || review[id].status != Pending {
        return NotPending;
      }
      review := review[id := review[id].(status := Overridden, resolvedAt := Some(now))];
      return Done;
    }

    method MarkVerified(source: string, slugs: seq<string>, now: int, fail: bool)
      modifies this
      ensures Tables() == if fail then old(Tables()) else Verify(old(Tables()), source, slugs, now)
      ensures !fail ==> StampsListed(old(Tables()), Tables(), source, slugs, now)
    {
      VerifyStamps(Tables(), source, slugs, now);
      if fail || slugs == [] {
        assert slugs == [] ==> old(Tables()) == Verify(old(Tables()), source, slugs, now);
        return;
      }
      var db := Tables();
      prices := map k | k in prices ::
        if Matched(db, k, source, slugs) then prices[k].(verifiedAt := Some(now)) else prices[k];
    }
  }
}
