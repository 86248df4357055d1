# LLM pricing pipeline: a verified model

This project models the parts of the LLM pricing service whose correctness spans many functions and
many runs, and proves what they promise.

- **Price reconciliation.** A scrape is compared with the stored prices, the differences are grouped by
  model and field, and each group passes a two-observation gate or a multi-source consensus rule.
  Confirmed values go to an append-only history and a current-price table, disagreements to a review
  queue. The gate's memory is mirrored to Redis so that a restart loses nothing.
  (`Prices`, `DiffEngine`, `PriceStore`, `HistoryTruth`, `TableEffects`, `MultiSource`, `PendingMirror`,
  `Reconciler`, `GroupEffects`, `GroupOutcomes`, `CrashTransparency`, `Convergence`, `Restless`, `Worker`,
  `PipelineHistory`, `CompanionColumn`, `PublishBudget`, `VisitOrder`, `TwoObservations`, `OrderedMirror`,
  `ReplayBuffer`; `Folds` is a small theory of order-free folds.)
- **Key issuance.** A provider and a registry kept consistent by create, insert and compensate, under
  concurrent requests, and the one-time tokens before them. (`KeySaga` is the state machine,
  `KeyHandlers` the handlers, `Tokens` both for tokens.)
- **Log shipping.** Lines reassembled in place from arbitrary chunks, a bounded dropping queue, a
  shutdown protocol. (`LogWriter`, `LogQueue`)
- **Benchmark evidence and capabilities, the catalogue walk, the request limiter.**
  (`Evidence`, `Capability`, `Catalogue`, `RateLimit`)

Prices and scores are exact reals with the source's tolerances 1e-12 and 0.05. The NUMERIC(20,10)
columns are modelled with their rounding, because it decides several results. Database, Redis and
provider calls are atomic effects; clock readings, failures, map iteration order and the interleaving
of concurrent work are parameters. What each theorem ranges over:

- Map iteration order: every theorem about a cycle or an aggregation, for all orders.
- Store failures (lookups, publishes, flags, model inserts, stamps): all theorems of `Reconciler`,
  `GroupEffects`, `GroupOutcomes`, `CrashTransparency`, `PipelineHistory`, `PublishBudget` and
  `CompanionColumn`; `Convergence` and `Restless` are about scans without failures, which is where rest
  could be expected.
- Redis failures: `TwoObservations` (lost, late and reordered commands, failed reads, a lapsing hash). In
  `CrashTransparency` and the theorems built on it the hash takes every command in order.
- Restarts: between cycles in `CrashTransparency`, `Worker`, `PipelineHistory`, `PublishBudget` and
  `CompanionColumn`, anywhere in `TwoObservations` and `KeySaga`.
- Interleaving: `TwoObservations`, `OrderedMirror`, `KeySaga`, `Tokens`, `LogQueue`, `ReplayBuffer`, for all.
- Late and early requests, of all addresses: `RateLimit`.

The objects that the source updates in place are classes (`PgStore`, `Service`, `Handlers`, `Stores`,
`TokenStore`, `OtlpWriter`, `EventStream`, `Limiter`, `CapabilityStore`). Their methods are proved to change the
state exactly as a specification function says, and the theorems are about those functions over whole
runs. What each operation comes to is also told without its specification function, column by column, label by
label or byte by byte (`GroupEffects`, `GroupOutcomes`, `TableEffects`, and the second half of each method's
contract). `dafny verify dfyconfig.toml` checks everything.

## Where the code differs from what it says

- **Quiescence.** Two identical scrapes settle every price, but a third finds nothing to do exactly
  when every reported price is within 1e-12 of its NUMERIC(20,10) rounding
  (`Convergence.TwoScansConverge`, `Worker.TwoRunsSettle`). A reported 0.00000000015 is not
  (`Restless.SmallFeedNeverRests`). Such a field is published again at least every second scan: no stored
  price changes, and the append-only history gains a repeated row each time
  (`Restless.HistoryNeverStops`).
- **Failed price lookups.** One scrape alone is not meant to overwrite a confirmed value. When the lookup
  inside `publish` fails, the companion column of an existing row becomes this cycle's sibling value,
  seen once, and the row is called Medium (`CompanionColumn.SingleReportOverwrites`; the log message there
  promises 0, which the guard would refuse). The companion column is kept exactly when the lookup worked and it is positive, or
  the sibling rounds to it (`Reconciler.CompanionKeptIff`). With working lookups a positive column
  changes on the single-source path only to a value of that very field sighted before
  (`CompanionColumn.ChangeNeedsTwoSightings`).
- **Positive prices.** The incomplete-price guard tests values before rounding, so an enabled publish can
  write a zero (`HistoryTruth.TinyPriceStoredAsZero`). Reconciler rows are positive exactly when every
  published price is at least 5e-11, and so whenever no report lies strictly between 0 and 5e-11
  (`PipelineHistory.PipelinePositiveIff`).
- **Equal timestamps.** The history insert is suppressed while the current price still moves. They
  stay in agreement exactly when the row is new or says the same (`HistoryTruth.WriteKeepsTruthIff`).
- **Pending keys.** `slug:field:provider` tells entries of one provider apart, whatever colons are in the
  names (`PendingMirror.SameProviderInjective`). Two providers share an entry for some slugs and fields
  exactly when one is, or after a colon ends in, a field name, a colon and the other
  (`PendingMirror.CollideIff`).
- **Order of a new model's fields.** The price row does not depend on it. What stays pending does, exactly
  when one field is new and the other is not contradicted by a waiting entry
  (`VisitOrder.NewModelOrderIff`).
- **Mirror commands outside the mutex.** If Redis runs the HSET of one cycle after the HDEL of an
  overlapping one and the process then restarts, a consumed observation backs a second publish
  (`TwoObservations.ReorderedMirrorReusesObservation`). The same happens in one process life, with every
  command run in order, when HGETALL fails and the cycle goes on before hydration
  (`TwoObservations.UnhydratedCycleReusesObservation`). In one process life whose cycles observe only
  after hydration it cannot (`TwoObservations.GateIsFair`); nor, across restarts, when cycles observe
  only after hydration, commands run in issue order and none is lost, and a process ends only with none
  outstanding (`OrderedMirror.OrderedMirrorNeverReuses`).
- **Freshness.** The oldest-evidence loop takes the zero time for "none yet", so `Aggregate` can call the
  same evidence fresh or stale by its map iteration order, exactly when some evidence has the zero time
  and some is stale (`Capability.FreshnessOrderFreeIff`).
- **Late increments.** A request whose INCR runs after its window ended is always admitted, so no bound
  holds on those (`RateLimit.LateRun`); on the requests that a counter saw it holds in every run
  (`RateLimit.AdmittedIff`, `RateLimit.SlidingBound`).
- **Ambiguous commits.** If the registry commits but reports an error, the compensation kills an active
  key (`KeySaga.AmbiguousCommitKillsActiveKey`); the saga theorems exclude that move and no other.

## Model

| member | source | states |
|---|---|---|
| Prices.OnlyRoundingIsClose | migrations/000004_create_prices.up.sql:4-5 | a NUMERIC(20,10) value within 1e-12 of a price can only be that price's rounding |
| Prices.PositiveOnceStored | migrations/000004_create_prices.up.sql:4-5 | a positive price is stored as positive exactly from 5e-11 on |
| Prices.RoundsToNearest | migrations/000004_create_prices.up.sql:4-5 | a stored price is the nearest multiple of 1e-10, away from zero on a tie; a price fits exactly when it rounds below 1e10 |
| DiffEngine.IndexBySlug | internal/diff/diff.go:29-42 | joining prices to models by id gives the by-slug index; unknown models drop out and later rows win |
| DiffEngine.IndexIsLast | internal/diff/diff.go:36-42 | the index holds, for a slug, the costs of the last price row whose model has it, and no other |
| DiffEngine.Diff | internal/diff/diff.go:28-67 | the imperative diff is the specified one, model by model and in order |
| DiffEngine.DiffExact | internal/diff/diff.go:44-67 | a diff is reported if and only if some scraped model's field moved by 1e-12 or more, or is new and above 1e-12; it carries that model's slug, source and provider, the stored and the reported value, and their quotient |
| DiffEngine.SilentIff | internal/diff/diff.go:44-67 | the diff is empty if and only if every stored field is within 1e-12 and every unstored one is at most 1e-12 |
| DiffEngine.ReviewIff | internal/diff/diff.go:74-110 | review is asked for exactly when a stored price came from nearly nothing or moved by over 5% of its old value; never for a new model |
| PriceStore.PgStore.LookupCurrentPrice | internal/reconciler/store.go:107-120 | reads back the stored columns; tells "no row" from "error" |
| PriceStore.PgStore.PublishPrice | internal/reconciler/store.go:122-175 | on success the row holds both rounded prices, confidence and provider, confirmed and verified now, history gains the same columns unless the key has an entry of that time, and nothing else changes; on any error or an out-of-range value nothing does |
| PriceStore.PgStore.FlagDiscrepancy | internal/reconciler/store.go:177-187 | one pending entry is appended, each value beside its own source, unless one is open for the model and field; nothing else changes |
| PriceStore.PgStore.ApproveEntry | internal/review/store.go:128-248 | a pending entry is resolved: source A's row holds source A's value at High, its other column is kept or 0, history records both columns, and every other row and entry stays |
| PriceStore.PgStore.RejectEntry | internal/review/store.go:261-274 | only a pending entry is overridden; nothing else changes |
| PriceStore.PgStore.MarkVerified | internal/worker/store.go:167-184 | verifies now exactly the rows of the named source whose model has a listed slug, and changes no other column |
| HistoryTruth.WriteKeepsTruthIff | internal/reconciler/store.go:135-169 | writing history and price keeps them in agreement if and only if the dedup index does not swallow a different row |
| HistoryTruth.SameTimestampBreaksTruth | migrations/000005_create_price_history.up.sql:19-20 | two publishes at one timestamp make the current price differ from the last history entry |
| HistoryTruth.HistoryIsTruth | internal/reconciler/store.go:122-175 | over every run of publishes, flags, approvals, rejections and stamps with strictly rising stamps: a current row exists exactly when its history is non-empty and equals the last entry; history only grows at its end |
| HistoryTruth.LastIsNewest | internal/reconciler/store.go:135-169 | the last entry of a key is its newest |
| HistoryTruth.ReconcilerRowsPositiveIff | internal/reconciler/reconciler.go:506-552 | over every run, reconciler rows are positive if and only if each published price was at least half a storage step |
| HistoryTruth.TinyPriceStoredAsZero | internal/reconciler/reconciler.go:522-536 | in any state, a price the diff reports passes the guard and its publish writes a zero row |
| HistoryTruth.StepOnQueue | internal/review/store.go:128-274 | an entry changes only from pending, and only by its own approval or rejection |
| HistoryTruth.ReviewMachine | migrations/000006_create_review_queue.up.sql:20-22 | over every run: at most one open entry per model and field; each entry ended at most once and never reopened or lost |
| HistoryTruth.HistoryCount | internal/review/store.go:186-242 | conservation: history rows equal committed publishes plus resolved entries |
| TableEffects.FlagThenApprove | internal/review/store.go:128-248 | a new flag of (a, va) against (b, vb), once approved, leaves the rounded va in a's row at High, keeps the other column, and leaves b's row as it was |
| TableEffects.ResolvedAsFlagged | internal/review/store.go:128-274 | over every run, each entry it brought was opened by one flag with its sides as flagged; a resolved one was approved by a step that wrote its first side's value to its first side's row, an overridden one rejected by a step that changed no price |
| MultiSource.SameSortedOrder | internal/reconciler/reconciler.go:287-294 | with distinct sources, sorting forgets the order of arrival |
| MultiSource.SortIsStable | internal/reconciler/reconciler.go:287-294 | the reports of one source keep their order |
| MultiSource.StrLeIs | internal/reconciler/reconciler.go:287-294 | sources are compared by prefix or by the first character in which they differ |
| MultiSource.Evaluate | internal/reconciler/reconciler.go:301-380 | the fast path and the two pairwise loops compute the specified decision |
| MultiSource.ClusterCounts | internal/reconciler/reconciler.go:317-332 | a cluster size is the number of reports within 1e-12 of its centre |
| MultiSource.BestIsLargest | internal/reconciler/reconciler.go:317-332 | the consensus is the earliest report with the largest cluster |
| MultiSource.WorstIsLargest | internal/reconciler/reconciler.go:335-351 | the pair loops find a pair with the largest relative difference |
| MultiSource.FlagNamesWorstPair | internal/reconciler/reconciler.go:353-372 | flagged if and only if the reports disagree and some pair is over 5% apart; the flag names a true worst pair |
| MultiSource.SilentIffAllApart | internal/reconciler/reconciler.go:353-380 | nothing is published if and only if some pair is over 5% apart and no two reports are within 1e-12 |
| MultiSource.PublishedIsBacked | internal/reconciler/reconciler.go:353-380 | a High price is a report another one agrees with and none has more followers; a Medium price is within 5% of every report, or both are below 1e-12 |
| MultiSource.ArrivalOrderIrrelevant | internal/reconciler/reconciler.go:276-381 | flag, value, source and confidence do not depend on the order in which diffs arrived |
| PendingMirror.SameProviderInjective | internal/reconciler/reconciler.go:415 | reports of one provider never share an entry, whatever colons the slugs and the provider hold |
| PendingMirror.CollideIff | internal/reconciler/reconciler.go:415 | two providers share an entry for some slugs and fields if and only if one is, or after a colon ends in, a field name, a colon and the other |
| PendingMirror.KeyInjective | internal/reconciler/reconciler.go:415 | pending keys are equal if and only if slug, field and provider are, for every two providers that do not collide |
| PendingMirror.ColonProvidersCollide | internal/reconciler/reconciler.go:415 | a colon in a provider lets two entries share a key |
| PendingMirror.KeyText | internal/reconciler/reconciler.go:415 | the text of a pending key |
| PendingMirror.MirrorReads | internal/reconciler/pending.go:97-130 | after a persist the hash answers with the entry and all it held for 72 hours; a removal takes its key and nothing else |
| Reconciler.Service.LoadPendingFromRedis | internal/reconciler/pending.go:44-90 | once per process: an entry is pending afterwards if and only if it was before or the unlapsed hash holds it, seen within 72 hours; memory wins |
| Reconciler.Service.SweepStalePending | internal/reconciler/reconciler.go:102-115 | keeps exactly the entries seen within 72 hours, and removes exactly the others from Redis |
| Reconciler.Service.ProcessSingleSource | internal/reconciler/reconciler.go:401-475 | the gate: publish Low on first sight of a row-less key, Medium on the second close observation, else remember; with its mirror command |
| Reconciler.CompanionKeptIff | internal/reconciler/reconciler.go:483-524 | a publish on an existing row keeps the companion column if and only if the lookup worked and the column is positive, or the sibling rounds to it |
| Reconciler.Service.PublishPrice | internal/reconciler/reconciler.go:483-552 | completes the other field from the table or the sibling, refuses incomplete prices, and keeps the companion column exactly under that rule, failed lookups included |
| Reconciler.Service.ProcessMultiSource | internal/reconciler/reconciler.go:276-381 | flag, then publish, as decided; every price row that changed is the model's row of the source of some report, and holds that report's value; the pending map and its mirror stay |
| Reconciler.Service.ResolveSources | internal/reconciler/reconciler.go:165-177 | each source resolved once; failures become -1 |
| Reconciler.Service.GroupDiffs | internal/reconciler/reconciler.go:184-198 | groups and cycle values are those of the diffs whose source resolved |
| Reconciler.Service.VisitGroup | internal/reconciler/reconciler.go:217-257 | one group goes to the gate when all its reports name one provider (the underlying one, else the source), and then flags nothing; else to consensus, and then touches neither the pending map nor its mirror |
| Reconciler.Service.VisitAll | internal/reconciler/reconciler.go:217-257 | ranges over the groups in some order, each exactly once |
| Reconciler.Service.Reconcile | internal/reconciler/reconciler.go:152-263 | a whole cycle changes tables, pending map, log and hash as the run function says |
| GroupEffects.OneProviderIsGated | internal/reconciler/reconciler.go:231-257 | when every report of a group names one provider, a visit logs no flag and nothing at High; a logged publish is the report of the first source, written to that source's row only; existing rows with no close waiting report keep their prices |
| GroupEffects.TwoProvidersReachConsensus | internal/reconciler/reconciler.go:276-381 | when two reports name different providers the pending map stays; a logged publish is a report's value in the row of that report's own source and no other, at High with another report within 1e-12, at Medium the first source's and within 5% of all; each side of a logged flag is the id and value of one report, its difference is theirs, and no two reports are further apart |
| GroupOutcomes.CycleKeepsResolved | internal/reconciler/reconciler.go:165-198 | a cycle works on exactly the reports whose source resolves, each as often as reported |
| GroupOutcomes.CycleForgetsStale | internal/reconciler/reconciler.go:102-115 | after every visit of a cycle no entry is pending that was last seen over 72 hours before its sweep, whatever process and hash remembered |
| GroupOutcomes.GateDecides | internal/reconciler/reconciler.go:401-475 | for one provider, both ways: without row and entry the report is attempted at Low, close to a waiting entry it ends the wait and is attempted at Medium, else it waits and nothing is written; an attempt is logged if and only if it is positive, fits, and the other field's price (stored and positive, else this cycle's last report) does too |
| GroupOutcomes.ConsensusSpeaks | internal/reconciler/reconciler.go:301-380 | for several providers, both ways: a flag is logged if and only if two reports are over 5% apart and not all agree with the first; without a dispute the first source's report is published whenever it can be, at High exactly when all agree; in a dispute nothing is unless two agree |
| CrashTransparency.MirrorFollowsGate | internal/reconciler/reconciler.go:428-466 | after a gate decision and its mirror command, hash and map agree on unexpired entries |
| CrashTransparency.HydrateAndSweep | internal/reconciler/pending.go:44-90 | after load and sweep, memory is exactly the unexpired pending map, restart or not |
| CrashTransparency.CycleStaysCoupled | internal/reconciler/reconciler.go:152-263 | a cycle of the mirrored process refines a cycle of an immortal one without Redis |
| CrashTransparency.ProcessRefinesIdeal | internal/reconciler/pending.go:44-130 | so does every run with restarts anywhere between cycles |
| CrashTransparency.CrashTransparent | internal/reconciler/pending.go:44-130 | two runs that differ only in their restarts commit the same publishes and flags, end with the same tables, and agree on every unexpired entry |
| Convergence.OneDiffPerGroup | internal/reconciler/reconciler.go:184-198 | with distinct slugs each group of a scrape holds its one diff |
| Convergence.VisitEffect | internal/reconciler/reconciler.go:428-475 | visiting a moved field settles it or leaves its report pending, and touches nothing else |
| Convergence.OneScan | internal/worker/handlers.go:79-146 | after one scan each field is settled or its report waits in the pending map |
| Convergence.SettledSilentIff | internal/diff/diff.go:87-110 | a settled table is silent if every report is representable, and no table is silent otherwise |
| Convergence.TwoScansConverge | internal/worker/handlers.go:79-146 | from any table and pending map, two scans under 72 hours apart settle every report in any group orders; the third diff is empty if and only if all reports are representable |
| Convergence.QuietForever | internal/worker/handlers.go:79-146 | once a diff is empty, any number of further scans writes no price, no history and no pending entry |
| Worker.FetchedIndex | internal/worker/store.go:52-131 | the rows the worker fetches, in any order, index to exactly the source's stored prices by slug |
| Worker.Handlers.EnsureModels | internal/worker/store.go:139-159 | known models keep their ids, the slug of every row that did not fail gets one, and no other slug does; an error only if every row failed |
| Worker.Handlers.FetchModels | internal/worker/store.go:52-90 | lists every model and nothing else |
| Worker.Handlers.FetchPricesBySource | internal/worker/store.go:95-131 | lists every price row of the source and nothing else |
| Worker.Handlers.RunPipeline | internal/worker/handlers.go:79-146 | fetch, ensure, diff, reconcile, stamp: stops early with the stated effects on an empty or failed fetch and on store errors; a failed stamp is no failure |
| Worker.PipelineIsScan | internal/worker/handlers.go:79-146 | a faultless handler run of a mortal process refines one scan of the ideal reconciler |
| Worker.TwoRunsSettle | internal/worker/handlers.go:79-146 | end to end: two handler runs over one scrape, with or without restarts before them, settle it; a third finds nothing to do if and only if the columns can hold every price |
| Restless.SmallFeedNeverRests | internal/diff/diff.go:87-110 | a feed that can be received, reporting 0.00000000015, has a non-empty diff in every state |
| Restless.SmallStateIsSettled | migrations/000004_create_prices.up.sql:4-5 | the state that stores this price rounded is settled |
| Restless.TwoScansRepublish | internal/worker/handlers.go:79-146 | two scans of a settled table with a price its column cannot hold append at least one history row, and only rows that repeat a settled price |
| Restless.HistoryNeverStops | migrations/000005_create_price_history.up.sql:1-20 | over any series of 2n such scans the table stays settled, and history gains at least n rows that repeat it |
| CompanionColumn.FailedLookupOverwrites | internal/reconciler/reconciler.go:493-524 | when the lookup in publish fails, confirming one field writes the sibling value of the other at Medium |
| CompanionColumn.SingleReportOverwrites | internal/reconciler/reconciler.go:386-400 | a stored output of 1 becomes 2 on one report of 2 |
| CompanionColumn.ChangeNeedsTwoSightings | internal/reconciler/reconciler.go:386-475 | over any run with restarts and store failures: where the lookup in publish works, the single-source path changes a positive column only to a reported value of that field that was sighted before within 1e-12 |
| CompanionColumn.SightingIsOfTheField | internal/reconciler/reconciler.go:415 | such a sighting is of the same model, field and provider while providers do not collide |
| PublishBudget.TwoReportsPerPublish | internal/reconciler/reconciler.go:401-475 | over any run with restarts and store failures: of every pending key the gate makes at most one Medium publish for every two reports |
| PipelineHistory.RunIsExplained | internal/worker/handlers.go:79-146 | every run of handler runs (with model inserts and stamps), cycles, restarts, store failures and operator actions changes the tables by enabled steps and nothing else, and logs the writes among them |
| PipelineHistory.PipelineKeepsTruth | internal/worker/handlers.go:79-146 | over such runs with rising clock readings: current prices are the last history entries, history only grows, by one row per publish and resolution, and the queue keeps one open entry per field |
| PipelineHistory.PipelinePositiveIff | internal/reconciler/reconciler.go:506-552 | over such runs reconciler rows are positive if and only if every published price was at least half a step, and so whenever no report lies strictly between zero and half a step |
| VisitOrder.VisitsCommute | internal/reconciler/reconciler.go:217-257 | visits of two different groups commute on prices, confidences and pending entries |
| VisitOrder.CycleOrderIrrelevant | internal/reconciler/reconciler.go:217-257 | when each group has one diff and every touched row is complete, a cycle ends the same for every visiting order |
| VisitOrder.NewModelOrderIff | internal/reconciler/reconciler.go:428-475 | for a model without a row both orders of its two groups write the same row, and leave the same pending map if and only if no field is new while the other is uncontradicted |
| VisitOrder.NewModelLeavesSecondField | internal/reconciler/reconciler.go:428-475 | when neither field was seen before, the field visited second is left pending |
| VisitOrder.NewModelOrderShows | internal/reconciler/reconciler.go:217-257 | so the two orders leave different pending maps |
| TwoObservations.EveryPublishHasTwoObservations | internal/reconciler/reconciler.go:428-457 | over every interleaving, with mirror commands delayed, lost or reordered and with restarts: each Medium publish has two observations of its key under 1e-12 apart, and every resting entry has count one |
| TwoObservations.SweepForgets | internal/reconciler/reconciler.go:102-115 | a sweep forgets exactly what was not seen within 72 hours, and sends the deletion of just that |
| TwoObservations.InstallAdds | internal/reconciler/pending.go:44-90 | the first snapshot installed adds its recent entries where memory has none; later ones change nothing |
| TwoObservations.DeliverWrites | internal/reconciler/pending.go:97-130 | a command that reaches the hash writes or deletes its keys and nothing else |
| TwoObservations.LapseAndRestart | internal/reconciler/pending.go:97-130 | a lapse empties the hash; a restart forgets what the process held, not what it has sent |
| TwoObservations.GateIsFair | internal/reconciler/reconciler.go:428-457 | in one process life, from its start or once hydrated, whose cycles observe only after hydration: the two observations are successive and none backs two publishes, over every interleaving with lost and reordered commands |
| TwoObservations.UnhydratedCycleReusesObservation | internal/reconciler/pending.go:44-61 | in one process life with every command run in order, a cycle that goes on before hydration lets one observation back two publishes |
| TwoObservations.ReorderedMirrorReusesObservation | internal/reconciler/pending.go:97-130 | across a restart a reordered mirror lets one observation back two publishes |
| OrderedMirror.OrderedMirrorNeverReuses | internal/reconciler/pending.go:97-130 | when cycles observe only after hydration, commands run in issue order and none is lost, and a process ends only with none outstanding: over every interleaving, across restarts and lapses of the hash, no observation backs two publishes |
| OrderedMirror.SettleEmpty | internal/reconciler/pending.go:97-130 | a lapsed hash only ever loses entries |
| KeySaga.ActiveKeysAreLive | internal/auth/handlers.go:345-372 | under every interleaving of issue and regenerate, with failures and stops anywhere: every active key is live at the provider and an identity has at most one |
| KeySaga.KeyIsNeverLost | internal/signup/store.go:367-412 | once an identity has an active key it has exactly one in every later state |
| KeySaga.CompletionLeavesNoOrphan | internal/auth/handlers.go:410-444 | when all handlers have finished and none stopped, no revocation failed and every creation was answered, an identity's live keys are exactly its active ones |
| KeySaga.AmbiguousCommitKillsActiveKey | internal/auth/handlers.go:358-372 | a commit that reports an error lets the compensation kill the active key |
| KeyHandlers.RecordedIsRun | internal/auth/handlers.go:328-450 | what the handlers record is a run of the saga from its start, without ambiguous commits |
| KeyHandlers.Stores.GetActiveKey | internal/signup/store.go:301-316 | finds the one active key, or none exactly when there is none |
| KeyHandlers.Stores.RevokeAndInsertKey | internal/signup/store.go:367-412 | swaps the keys in one transaction, or changes nothing when another key is active |
| KeyHandlers.Stores.IssueKey | internal/auth/handlers.go:328-378 | its exact moves of the saga; the existing key is answered if and only if there is one, a refusal takes nothing away, and without failures a new key becomes the identity's active one |
| KeyHandlers.Stores.RegenerateKey | internal/auth/handlers.go:385-450 | its exact moves of the saga, the revocation of the old key last, after the commit; a refusal takes nothing away; success leaves the new key active and the old one revoked in the registry, every other row as it was, and at the provider exactly the new key in the old one's place |
| KeyHandlers.Stores.CreateAndPersist | internal/auth/handlers.go:345-372 | create, persist, and compensate when persisting fails, as exact moves |
| Tokens.TokenStore.ConsumeToken | internal/signup/store.go:215-285 | each answer exactly under its condition; a grant needs an unused token that is unexpired at the second clock reading, and marks only it |
| Tokens.TokenStore.DeleteExpiredTokens | internal/signup/store.go:288-296 | keeps exactly the tokens that were used or have not expired |
| Tokens.TokensAreSingleUse | internal/auth/handlers.go:218-281 | over every interleaving of requests and pruning: a token is consumed at most once, before it expires, and stays; an identity is verified only after one of its tokens was consumed |
| Tokens.ReadAnswers | internal/signup/store.go:215-248 | a request is told that the token is unknown, used or expired, each exactly when it is |
| Tokens.TryAnswers | internal/signup/store.go:251-285 | the update uses the token up if and only if it is still unused and unexpired |
| Tokens.UsedIsToldUsed | internal/signup/store.go:243-245 | every later request for a consumed token is told that it was used |
| Tokens.FreshTokenIsGranted | internal/signup/store.go:215-285 | a request whose clock readings come before the expiry of an unused token is granted its identity, and uses it up |
| Tokens.UnexpiredTokenStays | internal/signup/store.go:288-296 | over every interleaving a token stays with its owner and expiry until it has expired, and for good once used |
| Tokens.PruneTakes | internal/signup/store.go:288-296 | pruning takes exactly the expired unused rows that no request has locked |
| LogWriter.SplitRejoins | internal/logger/otlp.go:153-170 | lines and tail rejoin to the stream |
| LogWriter.SplitIsClean | internal/logger/otlp.go:153-170 | no line and no tail holds a newline |
| LogWriter.SplitIsUnique | internal/logger/otlp.go:153-170 | newline-free pieces that rejoin to the stream are its lines and its tail |
| LogWriter.ChunksDoNotMatter | internal/logger/otlp.go:153-170 | for every way of cutting a stream into writes, the lines handed over are those of the whole stream and the buffer is its unterminated tail |
| LogWriter.BlankIff | internal/logger/otlp.go:175 | a line trims to nothing if and only if all its bytes are in {9, ..., 13, 32} |
| LogWriter.OtlpWriter.EnqueueLine | internal/logger/otlp.go:174-183 | a line with some byte outside {9, ..., 13, 32} is appended when the queue is open and has room, and counted as dropped when it is full; any other line, and any line after the close, leaves the channel as it was |
| LogWriter.OtlpWriter.AppendChunk | internal/logger/otlp.go:155 | appends, in the same array when it fits |
| LogWriter.OtlpWriter.ShiftFront | internal/logger/otlp.go:153-170 | the in-place shift leaves exactly what followed the newline |
| LogWriter.OtlpWriter.Write | internal/logger/otlp.go:153-170 | hands over the lines of buffer and chunk in order and keeps their tail |
| LogWriter.OtlpWriter.Stop | internal/logger/otlp.go:194-206 | flushes the partial line and closes, once |
| LogQueue.QueueConserves | internal/logger/otlp.go:174-206 | over every interleaving: capacity is kept, and every line written before the close with some byte outside {9, ..., 13, 32} is emitted in order, queued, or counted as dropped, and no other is |
| LogQueue.NothingSentAfterClose | internal/logger/otlp.go:174-183 | after the close nothing more is accepted or dropped |
| LogQueue.DropsOnlyWhenFull | internal/logger/otlp.go:174-183 | a line is dropped only while the queue is full |
| LogQueue.StopDrains | internal/logger/otlp.go:194-206 | when stop has returned, every such line of the stream, its last partial line included, was emitted in order or counted as dropped |
| ReplayBuffer.TrimIsExact | internal/reconciler/event.go:67-70 | trimming a buffer that holds the newest leaves exactly the newest thousand |
| ReplayBuffer.AddOnlyDisplaces | internal/reconciler/event.go:56-70 | adding an id, in any order, never brings an older one back |
| ReplayBuffer.BufferHoldsNewest | internal/reconciler/event.go:38-70 | over every interleaving the buffer holds the thousand highest ids added since it last expired; right after a trim it holds at most a thousand, and nothing it lacks is above anything it holds |
| ReplayBuffer.IdsAreFresh | internal/reconciler/event.go:38-48 | every id handed out exceeds all earlier ones |
| ReplayBuffer.EventStream.PublishEvent | internal/reconciler/event.go:32-76 | increment, add, trim, as moves of the buffer machine |
| Catalogue.FetchAllModelsOnce | frontend/lib/api.ts:348-389 | against arbitrary answers: at most 100 fetches; the first model listed of every id of some number of answers and nothing else; short of an announced total by at most a two-hundredth |
| Catalogue.EnoughIsEnough | frontend/lib/api.ts:361-380 | once the announced total is collected, no later answer matters |
| Catalogue.FetchAllModels | frontend/lib/api.ts:336-343 | one retry, of an incomplete walk only |
| Catalogue.StableCatalogueIsComplete | frontend/lib/api.ts:348-389 | a stable duplicate-free list of at most 20000 comes back whole and in order; under an announced total if and only if at most a two-hundredth of it is missing |
| RateLimit.Limiter.Allow | internal/middleware/ipratelimit.go:50-89 | decides and counts as specified; Retry-After is the whole seconds left |
| RateLimit.WindowHolds | internal/middleware/ipratelimit.go:50-60 | the window of a request is the aligned 900 seconds that hold its clock reading |
| RateLimit.CounterIsExact | internal/middleware/ipratelimit.go:50-89 | in every run, until its window has ended a counter exists exactly when a request counted, and holds how many |
| RateLimit.AdmittedIff | internal/middleware/ipratelimit.go:50-89 | in every run, a request is admitted if and only if it runs after its window's end or fewer than ten requests of its window counted before |
| RateLimit.FirstTenAreAdmitted | internal/middleware/ipratelimit.go:50-89 | for an address that is on time, whatever others do, each aligned window admits exactly its first ten |
| RateLimit.WindowBound | internal/middleware/ipratelimit.go:50-89 | in every run a window admits the smaller of ten and its counted requests, and every uncounted one |
| RateLimit.SlidingBound | internal/middleware/ipratelimit.go:50-89 | in every run any 900 seconds of captured time admit at most twenty requests of an address beyond those no counter saw |
| RateLimit.TwentyPerWindowLength | internal/middleware/ipratelimit.go:50-89 | for an address that is on time, at most twenty |
| RateLimit.LateRun | internal/middleware/ipratelimit.go:50-89 | for every n a run of n requests of one window, all late and all admitted |
| RateLimit.LateIsAlwaysAdmitted | internal/middleware/ipratelimit.go:50-89 | a request counted after its window ended is admitted, whatever came before |
| Evidence.OrderAndRepetitionIrrelevant | internal/intelligence/benchmark_store.go:42-58 | while a version always carries the same content, the table depends only on the set of observations |
| Evidence.ActiveIsUnique | internal/intelligence/benchmark_store.go:64-83 | a benchmark has an active row exactly when it has scored evidence, and only one |
| Evidence.ActiveIsLatest | internal/intelligence/benchmark_store.go:64-83 | it carries the latest observation, and the latest evaluation among those |
| Evidence.ActiveIsPreferred | internal/intelligence/benchmark_store.go:64-83 | it precedes every other scored row of the benchmark in all columns of the ORDER BY, and ties with none |
| Capability.LowerConfidence | internal/intelligence/aggregator.go:106-123 | the meet of two labels; unknown labels count as low |
| Capability.Aggregate | internal/intelligence/aggregator.go:54-104 | none exactly without data; else the row of some ranging order: the weighted mean; "high" if and only if every benchmark of the dimension is there with high evidence, "low" if and only if it is one among several or some evidence is below medium; stale only if some evidence is over 90 days old, and then unless some has the zero time |
| Capability.MoreScoresNeverLower | internal/intelligence/aggregator.go:85-98 | more scores whose labels were already there never lower the confidence |
| Capability.MeanOfTwo | internal/intelligence/aggregator.go:63-78 | two benchmarks count by their weights |
| Capability.ScoreIsBetween | internal/intelligence/aggregator.go:54-104 | a score lies between its lowest and highest benchmark |
| Capability.RowIsDetermined | internal/intelligence/aggregator.go:54-104 | unless some evidence has the zero time and some is stale, the row does not depend on iteration order |
| Capability.FreshnessOrderFreeIff | internal/intelligence/aggregator.go:66-87 | two ranging orders make Aggregate answer stale and fresh if and only if some present evidence has the zero time and some is stale |
| Capability.CapabilityStore.ScoreByName | internal/intelligence/aggregator.go:190-204 | the scored, known benchmarks by name and nothing else |
| Capability.CapabilityStore.Recompute | internal/intelligence/aggregator.go:167-243 | after commit exactly the dimensions with data have rows, each describing its evidence; on failure nothing changes |
| Capability.RowsDependOnObservationsOnly | internal/intelligence/aggregator.go:167-243 | under the same condition recomputed rows depend only on the set of observations: not on order, repetition, earlier rows or iteration order |

## Left out

- PriceField values other than the two token costs: the column CHECK admits only those two, and publish ignores any other.
- IEEE rounding of float64 arithmetic: prices, percentages and scores are exact reals; total * 0.005 is total / 200.
- delta_pct NUMERIC(10,4): its rounding and overflow are not modelled.
- slices.SortFunc on twelve or more diffs is not stable: it is modelled as the stable sort it is on shorter slices; for distinct sources this makes no difference.
- Redis failures in crash transparency: there the hash takes every command in order; `TwoObservations` covers lost, delayed and reordered ones.
- A crash in the middle of a cycle: restarts fall between cycles, except in `TwoObservations` and `KeySaga`.
- Webhooks, event payloads, metrics, tracing and log text: no state that the properties depend on.
- Surrogate ids, created_at and ingestion times, and model metadata other than slug and id.
- The writer tag of a history row is not a column: it only records which code path wrote it.
- Database isolation: each statement or transaction is one atomic step; collation of the active-row order is by character code.
- HistoryTruth.HistoryIsTruth: needs rising stamps, because equal ones break it (`HistoryTruth.WriteKeepsTruthIff`).
- KeySaga.ActiveKeysAreLive: excludes a commit that takes effect but reports an error, because such a commit breaks it.
- Convergence.TwoScansConverge: asks for prices above 1e-12 and providers of which no two collide, because a smaller price is never reported for a new model and colliding providers share entries.
- TwoObservations.GateIsFair: needs hydration before observation, because a cycle before it breaks fairness (`TwoObservations.UnhydratedCycleReusesObservation`).
- Evaluation times before the year 1, where the zero time is not the oldest.
- Sessions, the abuse guard and email: no protocol across calls.
- Tokens.TokensAreSingleUse: tokens removed by deleting their identity (ON DELETE CASCADE) are not modelled.
- The limiter when INCR fails (the request passes uncounted) or EXPIREAT fails (a relative expiry is tried);
  an address stands for the hash prefix that its key holds.
- White space beyond ASCII in the blank-line test, and the JSON parsing of emitted lines.
- Benchmark scraping, normalisation and the ranking of models: pure computations without state.
