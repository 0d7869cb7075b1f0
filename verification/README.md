# Formal model of the NyanShop bot's state-keeping protocols

A Dafny model of the parts of the shop bot and its agent runner that keep state: the order service and
its two repositories, the durable agent runner, the curated catalog and its storefront view, and the
codecs and merges around them. Each is proved against what the code promises, for every input, every
schedule of concurrent steps and every crash point. `dafny verify dfyconfig.toml` checks the whole
project.

Where the source updates state in place (the repositories, the state store, a worktree, the polling,
tailing and merging loops) the model has classes and methods with loops, each proved equal to a function
of the old state. Those functions carry the theorems.

## Orders

An order moves PREPARED, DISPATCHING, then SUCCEEDED, FAILED_SAFE or UNKNOWN, and from UNKNOWN through
RECONCILING. Any number of `place_order`, `recover` and `deliver` calls run at once. Every repository
call is one atomic step, every call to the supplier or the delivery sink is one step out and one step
back, and a thread may stop at any point. `OrderMemory` is the in-memory repository, `OrderTables` the
three PostgreSQL tables with `_load`'s join. The simulation between them needs the invariant that a
reference is stored exactly in SUCCEEDED and a failure code exactly in FAILED_SAFE: on a repeated
terminal record the two forms compare different fields. `OrderGuarantees` says what no schedule can break;
`OrderOutcomes` and `OrderCalls` say what the calls get done: where each answer of the supplier or the sink
is stored, and how whole calls run. A call whose checks fail raises before it touches an order
(`RefusedPlacementEnds`), and one that stops loses only its place (`StoppedCallIsForgotten`).

## Agent runner

`RunnerStore` is the SQLite store, one transaction a method. On top of it: writer claims, the token
ledger, leases and registered agents (controllers that die at any point, recoverers with stale
snapshots), the git commit and its recovery, the CI evidence loop, and the run loop as a machine
that may crash between any two writes while operators resume, recover and stop the run. `OwnerGateIsSound`,
`CommitsAreNeitherLostNorStacked` and `RunsAreBounded` speak of every schedule of that machine; the gate and
the bounds also of runs whose row an earlier version blocked. `RunnerRounds` and `RunnerHandovers` say what
each pass of the loop and each command gets done when nothing comes between, up to a whole run
(`RunReachesItsOwner`); a crash loses only where the controller stood (`CrashLosesOnlyThePlace`).
`RunnerLifecycles` does the same for leases and recoveries.

## Catalog, storefront, callbacks

`OfferKeys` is the URL-safe base64 codec without padding (sections 3.5 and 5 of RFC 4648) down to the
pad bits; `Curation` the versioned document in memory and in a table, `CurationSize` its size limit;
`CurationWorkspace` the save with its join and its answer; `Storefront` the stock rule over incomplete evidence; `Registry` the round-robin
merge against the aggregate validators; `Callbacks` the Telegram codec with its 64-byte limit; `Pagination`
the page arithmetic of the KhoMMO reader.

## Where the code does not do what it seems to promise

The model keeps the code; each point has a lemma with the failing case and the exact condition.

- A stale lease can be cleared while an agent is registered: `_clear_stale_process_state` looks at its
  snapshot's agent columns and then clears the lease with a guard on lease columns only
  (`RegisteredAgentCanLoseItsLease`; exactly when the snapshot shows the lease and no agent and one is
  registered by then, `KeptUnlessClearedUnderAgent`; never from a snapshot taken after the controller died,
  `DeadControllersSnapshotIsSafe`). No recovery can clear the registration after that
  (`OrphanedRegistrationBlocksRecovery`).
- A STOPPED run does not stay stopped: a resume's last write reopens it (`StaleResumeReopensStoppedRun`), and
  so does any phase write a running controller had pending (`PendingWriteUndoesStop`). These are the only
  two ways (`StoppedIsLeftExactly`).
- `resume_run` moves a run to OWNER_MERGED without re-reading it. In a run that the present loop started
  this cannot pass an unreviewed head (`OwnerGateIsSound`, `PresentRunsAreNeverBlind`). In a run that an
  earlier version blocked with the error of a failed CI run it can (`LegacyRunPassesGateUnreviewed`): a
  CI recovery in between takes the review back. The write is sound exactly when the row still shows the
  head the command read, as head and as reviewed head (`ResumeIsSoundExactlyOnItsRow`,
  `GateHoldsExactlyWithoutBlindResumes`). The present loop never writes that error: `CiFailed` is its only
  source (`github.py:51`), and both callers of `wait_for_ci` catch it (`service.py:510`, `service.py:2123`).
- The number of phase changes is not bounded by the budgets alone: a command can move a run back up, and a
  running controller can overrule a command (`MeasureCanRise`, exactly `MeasureRisesExactly`). Each such
  command costs at most a constant (`RunsAreBounded`).
- A crash between the move to WORKER_COMPLETE and the clearing of `worker_parent_sha` loses nothing, but
  the next fix round refuses to start (`CrashKeepsStaleParent`, `StaleParentBlocksTheNextFix`).
- A crash between counting the fix round of a review and the move to FIX_REQUESTED loses that round: the
  review is taken up again and counts another (`FixesAreCounted`).
- The PostgreSQL curation save validates the document only after it has written it; an oversized document
  replaces the row and the catalog can no longer be loaded (`OversizedSaveHidesTheCatalog`, exactly
  `TableRefinesDocument`). A valid request can have such a document, since the size limit is measured on
  the request and, in a longer form, on the document (`OversizedRequestHidesTheCatalog`, exactly
  `OversizedExactlyInWindow`).
- `save_workspace` may store a document and then fail, when some live product has a key of more than 512, a
  name of more than 255 or a description of more than 4000 characters (`OverlongKeyIsSavedThenRefused`,
  `OverlongTextIsSavedThenRefused`, exactly `StoredSaveIsAnsweredExactlyWhenOffersFit`). The catalog
  contract bounds none of them.
- One live product whose id is not an acceptable reference makes every save fail before it is stored
  (`StoredExactlyWhen`).
- The activity tailer splits lines on more characters than LF, and then numbers lines otherwise than the
  replay does (`TailEqualsFileExactly`).
- `finish_delivery` checks the failure text before it looks for the attempt in the tables, and after in
  memory, so an unknown attempt with a bad text is refused with different errors (`LinkIsKept`).
- Accounting protects the worker's session id only; a reviewer's is replaced by the next new record
  (`OnlyWorkerSessionIsProtected`).

## Model

| member | source | states |
|---|---|---|
| OrderTables.TablesRefineMemory | src/nyan_shop_bot/orders/repository.py:98-394 | The three tables simulate the map: from related states every call leads to related states, and both forms give the same answer or both refuse. |
| OrderTables.LinkIsKept | src/nyan_shop_bot/orders/repository.py:315-356 | The replies are equal, error included, if and only if the call is not a `finish_delivery` of an unknown attempt with an unacceptable failure text; the link between the forms is kept either way. |
| OrderTables.LoadAgrees | src/nyan_shop_bot/orders/repository.py:442-492 | For every id, the join of the tables returns exactly what the map holds, and "not found" exactly where it holds nothing. |
| OrderTables.LoadDecodes | src/nyan_shop_bot/orders/repository.py:442-554 | The row mappers invert the encoding of a stored order into intent, attempt and delivery rows. |
| OrderTables.OneCurrencyColumn | src/nyan_shop_bot/orders/service.py:112-119 | A prepared candidate is read back unchanged if and only if price and cap share one currency: the single currency column loses nothing only because of the service's check. |
| OrderTables.PrepareRefines | src/nyan_shop_bot/orders/repository.py:98-146 | `prepare` creates, finds by key or refuses a conflict alike in both forms, with the same reply. |
| OrderTables.OrderCallRefines | src/nyan_shop_bot/orders/repository.py:148-394 | Every other call on one order gives the same reply in both forms and keeps them linked, although repeated terminal records compare different fields. |
| OrderTables.PostgresOrderRepository.Prepare | src/nyan_shop_bot/orders/repository.py:98-146 | The new rows and the reply, for every candidate and every table content: key lookup through the unique column, constraint refusals, and the inserted pair of rows. |
| OrderTables.ConstraintsHold | src/nyan_shop_bot/orders/repository.py:98-146 | The unique keys that `Prepare` relies on hold of every set of tables that stands for a reachable map. |
| OrderTables.PostgresOrderRepository.Get | src/nyan_shop_bot/orders/repository.py:148-150 | The reply is what the join loads; no row changes. |
| OrderTables.PostgresOrderRepository.ClaimPrepared | src/nyan_shop_bot/orders/repository.py:170-198 | Only a PREPARED order is claimed, and both status columns then say DISPATCHING. |
| OrderTables.PostgresOrderRepository.RecordTerminal | src/nyan_shop_bot/orders/repository.py:358-394 | A terminal record is applied from DISPATCHING or RECONCILING, accepted again only with the same reference and failure code, and refused otherwise. |
| OrderTables.PostgresOrderRepository.RecordSuccess | src/nyan_shop_bot/orders/repository.py:200-211 | An unacceptable reference is refused before anything is read. |
| OrderTables.PostgresOrderRepository.RecordSafeFailure | src/nyan_shop_bot/orders/repository.py:213-225 | The safe-failure code becomes the terminal metadata, under the same rules. |
| OrderTables.PostgresOrderRepository.RecordUnknown | src/nyan_shop_bot/orders/repository.py:227-245 | DISPATCHING becomes UNKNOWN; UNKNOWN and RECONCILING answer unchanged; anything else is refused. |
| OrderTables.PostgresOrderRepository.BeginReconciliation | src/nyan_shop_bot/orders/repository.py:247-281 | UNKNOWN becomes RECONCILING; a terminal order answers without permission to call the supplier. |
| OrderTables.PostgresOrderRepository.CreateDeliveryAttempt | src/nyan_shop_bot/orders/repository.py:283-313 | A SUCCEEDED order gets the attempt after its highest number, with the identities of that number. |
| OrderTables.PostgresOrderRepository.FinishDelivery | src/nyan_shop_bot/orders/repository.py:315-356 | One PENDING attempt gets its outcome; a repeated outcome must be the same. |
| OrderMemory.InMemoryOrderRepository.Prepare | src/nyan_shop_bot/orders/fakes.py:231-242 | The new map, key index and reply, for every candidate. |
| OrderMemory.InMemoryOrderRepository.Get | src/nyan_shop_bot/orders/fakes.py:244-249 | The stored order or "not found"; nothing changes. |
| OrderMemory.InMemoryOrderRepository.ClaimPrepared | src/nyan_shop_bot/orders/fakes.py:265-272 | Only a PREPARED order is claimed; the claimed order is stored and returned. |
| OrderMemory.InMemoryOrderRepository.RecordSuccess | src/nyan_shop_bot/orders/fakes.py:274-295 | A repeated success must name the stored reference; otherwise only DISPATCHING and RECONCILING move. |
| OrderMemory.InMemoryOrderRepository.RecordSafeFailure | src/nyan_shop_bot/orders/fakes.py:297-317 | The same for the failure code. |
| OrderMemory.InMemoryOrderRepository.RecordUnknown | src/nyan_shop_bot/orders/fakes.py:319-329 | The new map and reply in each state. |
| OrderMemory.InMemoryOrderRepository.BeginReconciliation | src/nyan_shop_bot/orders/fakes.py:331-346 | The new map, the order and whether the supplier may be asked. |
| OrderMemory.InMemoryOrderRepository.CreateDeliveryAttempt | src/nyan_shop_bot/orders/fakes.py:348-372 | The attempt appended to a SUCCEEDED order, or the refusal. |
| OrderMemory.InMemoryOrderRepository.FinishDelivery | src/nyan_shop_bot/orders/fakes.py:374-403 | The attempt found by scanning all orders, and its outcome or refusal. |
| OrderMemory.MemKeepsInv | src/nyan_shop_bot/orders/models.py:401-419 | Every call keeps every stored order consistent with its payload, fingerprint, key and state, its terminal metadata where the state says, its attempts numbered, and the key index exact. |
| OrderMemory.ObligationIsFixed | src/nyan_shop_bot/orders/repository.py:396-423 | No call changes what was ordered, from whom, at what price or under which keys, and no order disappears. |
| OrderMemory.TerminalIsFinal | src/nyan_shop_bot/orders/repository.py:358-394 | A terminal purchase never changes again, and delivery calls never touch a purchase. |
| OrderMemory.DeliveriesOnlyGrow | src/nyan_shop_bot/orders/repository.py:283-356 | Delivery history only grows at its end, and an attempt leaves PENDING at most once. |
| OrderMemory.RepeatChangesNothing | src/nyan_shop_bot/orders/fakes.py:231-403 | Every accepted call but a claim and a new delivery is answered alike when it is repeated and changes nothing more; a second claim is never won. |
| OrderMemory.FinishedIsFrozen | src/nyan_shop_bot/orders/fakes.py:374-403 | After an attempt was finished, finishing it with the same outcome answers the same record, with another outcome is a conflict, and neither changes anything. |
| OrderPlanning.PlansExactlyWhatIsOnOffer | src/nyan_shop_bot/orders/service.py:100-149 | `place_order` reaches `prepare` if and only if execution is safe before and after, request and customer are valid, the supplier buys idempotently, and a fresh catalog and its detail offer that variant within the cap, in quantity, through an approved mapping to this supplier. |
| OrderPlanning.PlannedOrderIsAuthorised | src/nyan_shop_bot/orders/service.py:302-339 | The candidate carries the caller's key, customer, product, quantity and cap, the catalog's price, and the mapping's supplier ids, and both repositories accept its shape. |
| OrderPlanning.RefusedForItsReason | src/nyan_shop_bot/orders/service.py:100-149 | Every refusal of `place_order` before `prepare` is for what its error says: which check of the request, the runtime, the capability, the catalog, the detail, the price, the quantity or the mapping fails, on the first product and variant the request names. |
| OrderSafety.EveryRunIsSafe | src/nyan_shop_bot/orders/service.py:100-300 | The protocol invariant (stored orders, thread positions and the event trace agree) holds after every schedule with any number of threads and stops. |
| OrderGuarantees.TablesRunLikeMemory | src/nyan_shop_bot/orders/repository.py:93-423 | Every schedule of the service does the same over the tables as over the map: same positions, same external calls in the same order, related stores. |
| OrderGuarantees.OneOrderPerKey | src/nyan_shop_bot/orders/models.py:226-229 | In every reachable state two stored orders with one idempotency key are one order. |
| OrderGuarantees.PurchasedAtMostOnce | src/nyan_shop_bot/orders/service.py:271-300 | Over every schedule the supplier's `purchase` is called at most once per order. |
| OrderGuarantees.CallsAreAuthorised | src/nyan_shop_bot/orders/service.py:150-209 | Every supplier call carries the stored request key and payload; a purchase comes only from the `place_order` that stored DISPATCHING before it, for what its caller authorised; `recover` only reconciles. |
| OrderGuarantees.TerminalIsEvidenced | src/nyan_shop_bot/orders/service.py:163-209 | A SUCCEEDED or FAILED_SAFE order holds the very verdict that the supplier gave for this order in answer to an earlier call by the same thread. |
| OrderGuarantees.OrdersOnlyMoveForward | src/nyan_shop_bot/orders/repository.py:200-281 | Any continuation of any schedule keeps every order, its obligation and its delivery history, and a terminal purchase stays as it is whatever answers arrive late. |
| OrderGuarantees.ReturnedSnapshotsAreFaithful | src/nyan_shop_bot/orders/service.py:150-256 | A snapshot that a call returned shows a stored order, and a terminal outcome it shows is still the stored one. |
| OrderGuarantees.DeliveriesAreNumbered | src/nyan_shop_bot/orders/service.py:211-256 | In every reachable state attempts are numbered exactly 1..n with the keys of their numbers, and only a SUCCEEDED order has any. |
| OrderGuarantees.SentAtMostOnce | src/nyan_shop_bot/orders/service.py:211-222 | A delivery attempt is handed to the sink at most once, after the same thread stored it. |
| OrderGuarantees.OutcomeIsRecorded | src/nyan_shop_bot/orders/service.py:221-254 | Recording the outcome of a delivery is never refused, over either repository and every schedule: the stored attempt is DELIVERED without a text, or UNDELIVERED with the text given. |
| OrderOutcomes.PurchaseAnswerIsStored | src/nyan_shop_bot/orders/service.py:271-300 | From every reachable world over either repository: a purchase answer reaches the store with the next repository call of its thread, whatever others do in between. While the order is DISPATCHING or RECONCILING a purchase stores SUCCEEDED with its reference and a safe refusal FAILED_SAFE with its code, and anything else stores UNKNOWN from DISPATCHING; that order is returned, or the call raises if it was cancelled. A late answer to a settled order changes nothing. |
| OrderOutcomes.InquiryAnswerIsStored | src/nyan_shop_bot/orders/service.py:184-209 | The same for `recover`: a conclusive answer is stored and returned; any other returns the snapshot taken when reconciliation started and stores nothing; a cancelled call raises. |
| OrderOutcomes.SinkAnswerIsStored | src/nyan_shop_bot/orders/service.py:221-254 | From every reachable world: each answer of the sink reaches the store with the next repository call of its thread as DELIVERED, or as UNDELIVERED with the text for a refusal, a malformed answer or an exception, or a cancellation; nothing else of the order changes, and a cancelled call raises. |
| OrderOutcomes.RereadReturnsTheOrder | src/nyan_shop_bot/orders/service.py:255-256 | A thread that reads its order back returns what is stored at that moment. |
| OrderCalls.PlacementIsPrepared | src/nyan_shop_bot/orders/service.py:150-161 | A planned order with a new key is stored as its candidate; one whose key is stored with the same payload is picked up while PREPARED and returned otherwise; another payload raises; no other order changes and nobody is called. |
| OrderCalls.ClaimIsDecided | src/nyan_shop_bot/orders/service.py:271-276 | A claim is won exactly while the order is PREPARED, which makes it DISPATCHING; a lost claim changes nothing and leads to a read. |
| OrderCalls.PlacementRuns | src/nyan_shop_bot/orders/service.py:150-161 | From every reachable world an undisturbed `place_order` whose key is new or still PREPARED stores the candidate as DISPATCHING, calls the supplier exactly once with the key and payload of the order if it is still its supplier, and ends as the answer says; with another supplier it raises and leaves the order DISPATCHING. |
| OrderCalls.RecoveryOfSettledEnds | src/nyan_shop_bot/orders/service.py:163-180 | A recovery of a missing or PREPARED order raises and one of a terminal order returns it, without a write or a call. |
| OrderCalls.RecoveryReconciles | src/nyan_shop_bot/orders/service.py:163-184 | A recovery of any other order stores RECONCILING before it calls anybody, by way of UNKNOWN from DISPATCHING. |
| OrderCalls.RecoveryRuns | src/nyan_shop_bot/orders/service.py:163-209 | From every reachable world an undisturbed `recover` of an unsettled order asks the supplier at most once, only if it supports reconciliation and is the supplier of the order, with the key and payload of the purchase, and never buys; each answer ends as stated above. |
| OrderCalls.DeliveryIsCreated | src/nyan_shop_bot/orders/service.py:211-220 | A delivery stores the next numbered attempt exactly for a SUCCEEDED order with a number left, before the sink is called; any other delivery raises and changes nothing. |
| OrderCalls.DeliveryRuns | src/nyan_shop_bot/orders/service.py:211-256 | From every reachable world an undisturbed `deliver` adds exactly one attempt, sends it once, stores the outcome its answer stands for and returns the order as it then is. |
| RunnerStore.StateStore.CreateRun | src/nyan_shop_bot/orchestrator/store.py:239-311 | One run row and one active claim, or a refusal that changes nothing: the writer limit, a task that already runs, a claimed issue, a taken id. |
| RunnerStore.StateStore.AcquireProcessLease | src/nyan_shop_bot/orchestrator/store.py:313-342 | The lease is taken only when no token holds it; a missing identity and an unknown run are refused. |
| RunnerStore.StateStore.SetActiveAgent | src/nyan_shop_bot/orchestrator/store.py:357-383 | An agent is registered only under the held token and only over an empty registration. |
| RunnerStore.StateStore.ClearActiveAgent | src/nyan_shop_bot/orchestrator/store.py:385-408 | Only the token holder clears exactly the agent it names. |
| RunnerStore.StateStore.ClearStaleActiveAgent | src/nyan_shop_bot/orchestrator/store.py:410-435 | A recoverer clears the registration only if token and agent are still the ones it saw. |
| RunnerStore.StateStore.ReleaseProcessLease | src/nyan_shop_bot/orchestrator/store.py:437-458 | The token holder gives the lease back only with no agent registered. |
| RunnerStore.StateStore.ClearStaleProcessLease | src/nyan_shop_bot/orchestrator/store.py:460-483 | A recoverer clears the lease only if its three columns are still the ones it saw; the agent columns are not looked at. |
| RunnerStore.StateStore.RecordInvocationUsage | src/nyan_shop_bot/orchestrator/store.py:517-715 | A new record charges its role, the run and the high-water mark; the same evidence again answers the stored record; anything else is refused; a refusal changes nothing. |
| RunnerStore.StateStore.Transition | src/nyan_shop_bot/orchestrator/store.py:743-757 | Only the phase of an existing run changes. |
| RunnerStore.StateStore.UpdateRun | src/nyan_shop_bot/orchestrator/store.py:501-515 | Only the checkpoint columns of an existing run, and its worker session if one is given, change. |
| RunnerStore.StateStore.RecordCiFixRequest | src/nyan_shop_bot/orchestrator/store.py:759-833 | Compare-and-swap to FIX_REQUESTED together with the claim of a blocked run. |
| RunnerStore.StateStore.RecoverBlockedCiPass | src/nyan_shop_bot/orchestrator/store.py:835-887 | Compare-and-swap of a blocked run to REVIEW_RUNNING together with its claim; the review evidence is dropped. |
| RunnerStore.StateStore.AppendActivityEvent | src/nyan_shop_bot/orchestrator/store.py:897-944 | At most one row per run and source key, and none for a session that is not the pinned one. |
| RunnerStore.StateStore.ReleaseClaim | src/nyan_shop_bot/orchestrator/store.py:977-984 | The run's claims become inactive and nothing else changes. |
| RunnerStore.StateStore.ReactivateClaim | src/nyan_shop_bot/orchestrator/store.py:986-1031 | The claim of the run becomes active again if the limit and the issue allow it, else nothing changes. |
| RunnerClaims.ClaimsAreBounded | src/nyan_shop_bot/orchestrator/store.py:254-310 | After any history of store calls at most two claims are active, at most one per issue, and each run has exactly one claim row, for its own issue. |
| RunnerClaims.ClaimAndPhaseMoveTogether | src/nyan_shop_bot/orchestrator/store.py:797-880 | A run gains a claim only by being created or by leaving BLOCKED in the same transaction, and a CI transaction that leaves BLOCKED gains it. |
| RunnerClaims.CreateIsExact | src/nyan_shop_bot/orchestrator/store.py:239-311 | A run is created exactly when the limit is one or two and has a free writer, its name is new, its issue has no active claim and its task no unfinished run; the new rows are spelled out and a refusal changes nothing. |
| RunnerClaims.RecoverIsExact | src/nyan_shop_bot/orchestrator/store.py:835-887 | A CI recovery moves a run to REVIEW_RUNNING exactly when it is BLOCKED, may run, shows the expected head and its claim can be taken up again within the limit and the issue; both rows are spelled out and a refusal changes nothing. |
| RunnerClaims.CiFixIsExact | src/nyan_shop_bot/orchestrator/store.py:759-833 | A CI fix is recorded exactly on the expected phase, head and round of a run that may run, from BLOCKED only with its claim, and counts one round; a refusal changes nothing. |
| RunnerLedger.LedgerBalances | src/nyan_shop_bot/orchestrator/store.py:565-715 | After any history, replays included, each role total is the sum of its records, the run total is both together, the cumulative parts telescope to the last provider total, and an invocation has one record. |
| RunnerLedger.TotalsNeverFall | src/nyan_shop_bot/orchestrator/store.py:639-715 | No store call with valid accounting values lowers a total or the cumulative high-water mark. |
| RunnerLedger.ReplayChangesNothing | src/nyan_shop_bot/orchestrator/store.py:565-611 | Once accepted, a call repeated after any further history answers the same record and changes nothing. |
| RunnerLedger.ReplaysAreInvisible | src/nyan_shop_bot/orchestrator/store.py:565-611 | A history with the replay and the history without it end in the same tables. |
| RunnerLedger.RecordIsAcceptedExactly | src/nyan_shop_bot/orchestrator/store.py:517-640 | A usage call is accepted exactly when its arguments are sound, its run is known, and its invocation is either on record with the same evidence or new, in the session of the worker and with a cumulative total no lower than the last. |
| RunnerLedger.RecordIsExact | src/nyan_shop_bot/orchestrator/store.py:639-715 | An accepted new call leaves one record at its price (what it enforces, or what a cumulative total adds), adds that price to its role and to the run, keeps session, digest and mark, and changes nothing else; any other call changes nothing. |
| RunnerLedger.OnlyWorkerSessionIsProtected | src/nyan_shop_bot/orchestrator/store.py:612-687 | No accounting or activity call replaces a worker session; a reviewer session is replaced exactly by a new accepted record of another session. |
| RunnerLedger.NormalizedUsageIsValid | src/nyan_shop_bot/orchestrator/models.py:283-389 | Both normalisations keep every reported value and always pass the independent accounting validator; tokens are enforced exactly when every component was reported, as input that was not cached plus output; the state says whether all, some or none was reported. |
| RunnerLeases.OneLiveController | src/nyan_shop_bot/orchestrator/store.py:313-342 | Over every schedule of controllers, agents, crashes and recoverers, two live working controllers are one, and the lease names it. |
| RunnerLeases.OneUncontainedAgent | src/nyan_shop_bot/orchestrator/service.py:1523-1544 | At most one agent is past its barrier without proven containment, and it is the registered one. |
| RunnerLeases.LeaseChangesHands | src/nyan_shop_bot/orchestrator/service.py:2189-2239 | A lease changes only by acquisition of a free one, release by its token with no agent, or clearing by a recoverer whose snapshot is the current lease and whose controller is dead; any other recoverer changes nothing. |
| RunnerLeases.RegistrationEndsContained | src/nyan_shop_bot/orchestrator/service.py:1943-1986 | A registration ends only for a dead agent with a containment acknowledgement. |
| RunnerLeases.KeptUnlessClearedUnderAgent | src/nyan_shop_bot/orchestrator/store.py:460-483 | From any reachable state with "a registered agent implies a held token", a step keeps that if and only if it is not a stale-lease clearing by a recoverer whose snapshot shows this lease and no agent, when one is registered. |
| RunnerLeases.DeadControllersSnapshotIsSafe | src/nyan_shop_bot/orchestrator/service.py:2189-2239 | A recoverer that read the row after the controller had died never does that, whatever happens in between. |
| RunnerLeases.GuardedRunsKeepAgentUnderLease | src/nyan_shop_bot/orchestrator/store.py:357-483 | Over every schedule without such a clearing a registered agent implies a held token. |
| RunnerLeases.RegisteredAgentCanLoseItsLease | src/nyan_shop_bot/orchestrator/service.py:2189-2239 | The concrete schedule from a quiet run that ends with a live, started, registered agent and no lease. |
| RunnerLeases.OrphanedRegistrationBlocksRecovery | src/nyan_shop_bot/orchestrator/service.py:2189-2239 | From a registration without a lease, over every interleaving of recoverers, the row never changes and no recovery that starts there succeeds. |
| RunnerLifecycles.LeaseIsTakenExactlyWhenFree | src/nyan_shop_bot/orchestrator/store.py:313-342 | A starting controller takes a free lease under its own pid, identity and token; on a held run it ends and the holder keeps it. |
| RunnerLifecycles.AgentIsLaunched | src/nyan_shop_bot/orchestrator/service.py:1523-1544 | A holder registers the very process it spawned before that process may start. |
| RunnerLifecycles.AgentIsClearedExactlyWhenContained | src/nyan_shop_bot/orchestrator/service.py:1843-1875 | A watching controller clears the registration exactly when the agent is dead and contained. |
| RunnerLifecycles.LeaseIsReturnedExactlyWithoutAgent | src/nyan_shop_bot/orchestrator/store.py:437-458 | An ending controller gives the lease back exactly if no agent is registered; otherwise both stay on record. |
| RunnerLifecycles.ControllerLeavesNoTrace | src/nyan_shop_bot/orchestrator/service.py:380-427 | A controller that starts on a free run, launches one agent and sees it dead and contained leaves the run free again. |
| RunnerLifecycles.RecoverySucceedsExactly | src/nyan_shop_bot/orchestrator/service.py:2189-2239 | From every reachable state an undisturbed cleanup frees the run exactly if its controller is dead and no agent is registered, or one that is dead and contained under that lease; the release of an idle run clears exactly such an agent; any other recovery fails and changes nothing. |
| RunnerGit.CommitIsARunnerCommit | src/nyan_shop_bot/orchestrator/gitops.py:387-481 | The runner commits at most once, on the expected parent, exactly the pending files, inside the grant, and on success leaves a clean worktree; a refusal before that leaves HEAD alone. |
| RunnerGit.RecoveredIsARunnerCommit | src/nyan_shop_bot/orchestrator/gitops.py:484-568 | A commit that recovery accepts is one runner commit on the expected parent, with the reported files, in a clean worktree. |
| RunnerGit.RecoveryAcceptsTheCommit | src/nyan_shop_bot/orchestrator/gitops.py:484-568 | After a crash, recovery with the same result accepts exactly the commit that was made and reports the same files. |
| RunnerGit.CommitNeverStacks | src/nyan_shop_bot/orchestrator/gitops.py:411-419 | Once HEAD has left the expected parent, committing for that parent is refused and changes nothing. |
| RunnerGit.CommitIsMadeExactly | src/nyan_shop_bot/orchestrator/gitops.py:387-481 | A commit is made exactly when the result speaks of this task, branch and parent and lists exactly the pending files, all inside the grant, no path is staged without differing, and git commits; it has that parent, those files and the subject of the task; it is accepted exactly if nothing is left over. |
| RunnerGit.RecoveryAcceptsExactly | src/nyan_shop_bot/orchestrator/gitops.py:484-568 | Recovery accepts exactly the tip of a clean worktree on the branch of the task that is one runner commit on the expected parent, for a successful result of this task that lists its files. |
| RunnerGit.Worktree.ValidateAndCommitWorkerChanges | src/nyan_shop_bot/orchestrator/gitops.py:387-481 | The new worktree state and result, for every task, result and environment. |
| RunnerCi.WaitForCi | src/nyan_shop_bot/orchestrator/github.py:403-504 | The loop returns the verdict of the first poll that has one, after only inconclusive polls, or times out saying whether any run was seen; the delay is doubled by each sleep up to its maximum. |
| RunnerCi.ChecksAreLastJobs | src/nyan_shop_bot/orchestrator/github.py:541-547 | A check holds the state of the last job of its name in the job list, and exists exactly if the list has such a job. |
| RunnerCi.PassIsExact | src/nyan_shop_bot/orchestrator/github.py:412-501 | A poll passes a head exactly when two reads of one run and attempt, the newest of this very head, are completed, the first shows a pass or a failed required name, and the second succeeded with the last job of every required name a success. |
| RunnerCi.FailureIsExact | src/nyan_shop_bot/orchestrator/github.py:412-497 | A poll fails a head exactly when two such reads each show a required name whose last job ended in anything but success; it then lists exactly those names of the second read, in task order. |
| RunnerCi.OwnerEndsTheWait | src/nyan_shop_bot/orchestrator/github.py:403-504 | A poll ends the wait by pause or stop exactly as the first control it reads that is not to go on says; the second is read only after a first read that spoke, the third only without a verdict. |
| RunnerGate.OwnerGateIsSound | src/nyan_shop_bot/orchestrator/service.py:1081-1153 | Over every schedule of a run the loop starts, with crashes between any two writes and commands however stale, a run in READY_FOR_OWNER, OWNER_MERGED or COMPLETED has its reviewed head equal to its head, a PASS review of it and CI success of all required checks for it; past READY_FOR_OWNER it is also the head whose merge was confirmed. |
| RunnerGate.PresentRunsAreNeverBlind | src/nyan_shop_bot/orchestrator/service.py:2144-2173 | In such a run no resume writes over a row that has left what it read. |
| RunnerGate.ReadyForOwnerIsEvidenced | src/nyan_shop_bot/orchestrator/service.py:1081-1153 | Over every schedule from a new run or from a row an earlier version blocked on CI, with no exception, a run READY_FOR_OWNER has all that evidence. |
| RunnerGate.ResumeIsSoundExactlyOnItsRow | src/nyan_shop_bot/orchestrator/service.py:2151-2173 | From any such start, the last write of a resume lands on an evidenced, confirmed head if and only if the row then shows the head the command read as both its head and its reviewed head. |
| RunnerGate.GateHoldsExactlyWithoutBlindResumes | src/nyan_shop_bot/orchestrator/service.py:2144-2173 | From any such start and over every schedule the gate holds all the way if and only if no resume writes where the row differs from what it read, or while a worker step or a publication is moving the head. |
| RunnerGate.MovingHeadShows | src/nyan_shop_bot/orchestrator/service.py:462-498 | While the gate holds, the head can only be moving when the row says WORKER_RUNNING, WORKER_COMPLETE or STOPPED. |
| RunnerGate.RecoveryUnderResumeBreaksGate | src/nyan_shop_bot/orchestrator/store.py:870-880 | A CI recovery that writes during a resume makes that resume blind, and the resume then ends in OWNER_MERGED without a reviewed head. |
| RunnerWitness.LegacyRunPassesGateUnreviewed | src/nyan_shop_bot/orchestrator/service.py:2079-2173 | For every task with an invocation left there is a schedule from a row blocked on CI, in which the loop never writes that error, to OWNER_MERGED without a reviewed head. |
| RunnerGate.EvidenceIsEarned | src/nyan_shop_bot/orchestrator/service.py:462-551 | Over every schedule from any start, a head is approved only by saving a PASS review of that head while it is the run's head, and passes CI only by a poll judged a pass for it. |
| RunnerGate.StaleResumeReopensStoppedRun | src/nyan_shop_bot/orchestrator/service.py:2144-2173 | A stop between a resume's read and its last write is undone. |
| RunnerPlaces.StoppedIsLeftExactly | src/nyan_shop_bot/orchestrator/service.py:1914-1922 | Over every schedule from any start, a step takes a run out of STOPPED if and only if it is the last write of a resume, or a phase write that a running controller had pending. |
| RunnerPlaces.PendingWriteUndoesStop | src/nyan_shop_bot/orchestrator/service.py:2013-2050 | A concrete schedule: a stop asks for STOPPED and finds no controller, a resume asks for RUNNING and a controller starts, the stop command finishes and the run is STOPPED, then the controller's pending write makes it CLAIMED. |
| RunnerPlaces.StepStaysPlaced | src/nyan_shop_bot/orchestrator/service.py:429-553 | Every step writes exactly the phase its branch writes, and the row shows the phase the controller stands in unless a command wrote a stop, an owner merge or a fix request over it. |
| RunnerChain.AcceptedHeadIsAChain | src/nyan_shop_bot/orchestrator/service.py:555-721 | Whoever moves HEAD, the accepted head is the base followed by single runner commits, each inside the allowed paths. |
| RunnerChain.CommitsAreNeitherLostNorStacked | src/nyan_shop_bot/orchestrator/service.py:555-721 | When only the runner commits, over every schedule of a run the loop starts, its commits form one stack on the base with HEAD on top, the row has accepted all or all but the last, and from the accepted result on it has accepted all. |
| RunnerChain.CrashAfterCommitIsRecovered | src/nyan_shop_bot/orchestrator/service.py:555-721 | A controller that dies after the git commit and before the store write, started again with the same durable result, stores exactly that commit and makes no other. |
| RunnerChain.EveryCommitFollowsAnAcceptedOne | src/nyan_shop_bot/orchestrator/service.py:908-926 | A commit is made only when every earlier one is accepted, so a result is never committed twice. |
| RunnerChain.CrashKeepsStaleParent | src/nyan_shop_bot/orchestrator/service.py:916-926 | A crash before the parent is cleared always leaves the accepted head with a parent that is not it. |
| RunnerBounds.BudgetsHold | src/nyan_shop_bot/orchestrator/service.py:1415-1433 | Over every schedule invocations and fix rounds never exceed their budgets. |
| RunnerBounds.FixesAreCounted | src/nyan_shop_bot/orchestrator/service.py:294-303 | Over every schedule, commands included, the rise of the stored fix rounds is exactly the number of steps that turn a review, a CI wait or a blocked run into FIX_REQUESTED, plus the rounds lost to a crash, an exception or an overruled phase, plus the one about to be granted; so at most `max_fix_rounds` fixes are granted. |
| RunnerBounds.MeasureRisesExactly | src/nyan_shop_bot/orchestrator/service.py:429-553 | In every reachable world (invocations left, phase rank) rises at a step if and only if a command reopens the run (a CI recovery of a BLOCKED run, an owner merge of a COMPLETED, BLOCKED or STOPPED one) or the controller's pending phase write overrules a stop, an owner merge or a fix request; every other phase change or launch lowers it, except a command's write that displaces a running controller. |
| RunnerBounds.MeasureCanRise | src/nyan_shop_bot/orchestrator/service.py:2013-2050 | A concrete schedule at which it rises. |
| RunnerBounds.RunsAreBounded | src/nyan_shop_bot/orchestrator/service.py:429-553 | Over every schedule the number of phase changes and launches is at most the start's measure, linear in the invocation budget, plus a constant for each command write that reopens the run or displaces its controller. |
| RunnerRounds.OwnerIsObeyed | src/nyan_shop_bot/orchestrator/service.py:1907-1922 | At the top of the loop a paused run stays as it is, a stopped one becomes STOPPED, and a run at its end is left alone. |
| RunnerRounds.WorkerIsLaunched | src/nyan_shop_bot/orchestrator/service.py:723-800 | A worker is launched, for one invocation and with its parent on record, exactly when the budget, the head and the worktree allow it; otherwise the run is BLOCKED. |
| RunnerRounds.WorkerEnds | src/nyan_shop_bot/orchestrator/service.py:880-926 | A successful worker whose changes can be committed and leave nothing over completes the round with exactly that commit as head, no review and no parent on record; any other answer blocks the run, with the worktree as it was left. |
| RunnerRounds.ReviewRuns | src/nyan_shop_bot/orchestrator/service.py:928-1153 | A review of an exact, clean head takes up a surviving result for nothing or costs one invocation, and then ends in READY_FOR_OWNER, in FIX_REQUESTED with one more counted round while rounds are left, or in BLOCKED, as its verdict says; a review of another head blocks. |
| RunnerRounds.LostReviewRestarts | src/nyan_shop_bot/orchestrator/service.py:999-1005 | A review that was started and left no result is forgotten and started again. |
| RunnerHandovers.RecoveryOfCommit | src/nyan_shop_bot/orchestrator/service.py:555-721 | A worker that died after its commit: the commit becomes the head exactly if recovery accepts it, else the run is BLOCKED; no commit is made. |
| RunnerHandovers.RecoveryOfSuccess | src/nyan_shop_bot/orchestrator/service.py:555-721 | A worker that died before the commit of its success: the commit is made now and accepted on the same terms, the turn is given back if it is refused, and the run is BLOCKED if it was made and not accepted. |
| RunnerHandovers.RecoveryWithoutSuccess | src/nyan_shop_bot/orchestrator/service.py:555-721 | A worker that left no result gives its turn back, on its parent and in the phase its round says; a failed one blocks. |
| RunnerHandovers.IssueIsClaimed | src/nyan_shop_bot/orchestrator/service.py:443-454 | A new run gets its worktree on its branch and base and is CLAIMED; a worktree on another branch blocks it. |
| RunnerHandovers.HeadIsPublished | src/nyan_shop_bot/orchestrator/service.py:464-491 | A completed head that is still in the worktree is published and waits for CI without a review or a CI run on record; otherwise the run is BLOCKED. |
| RunnerHandovers.CiRuns | src/nyan_shop_bot/orchestrator/service.py:493-526 | A CI wait ends as its verdict says: REVIEW_RUNNING with the run on record, FIX_REQUESTED with one more counted round while rounds are left and the worktree is clean on that head, a pause, a stop, or BLOCKED. |
| RunnerHandovers.MergeIsDelivered | src/nyan_shop_bot/orchestrator/service.py:1165-1195 | A merge of the reviewed head completes the run; a merge of any other head blocks it. |
| RunnerHandovers.StrayPhaseBlocks | src/nyan_shop_bot/orchestrator/service.py:532-553 | A run in a phase the loop has no step for, or past its worker without a head, is BLOCKED. |
| RunnerHandovers.ExceptionBlocks | src/nyan_shop_bot/orchestrator/service.py:1924-1941 | An exception blocks a run with its error, unless it is at its end. |
| RunnerHandovers.InterruptionIsObeyed | src/nyan_shop_bot/orchestrator/service.py:390-417 | A pause during an agent leaves the run as it is; a stop makes it STOPPED. |
| RunnerHandovers.ResumeRuns | src/nyan_shop_bot/orchestrator/service.py:2151-2173 | An undisturbed resume after the merge moves exactly a READY_FOR_OWNER run with a pull request on its reviewed head to OWNER_MERGED, with the merge on record, and leaves any other run alone. |
| RunnerHandovers.StopRuns | src/nyan_shop_bot/orchestrator/service.py:1914-1922 | An undisturbed stop makes a run STOPPED unless it is COMPLETED, BLOCKED or STOPPED. |
| RunnerHandovers.RecoveryRuns | src/nyan_shop_bot/orchestrator/service.py:2079-2142 | An undisturbed CI recovery acts exactly on a run BLOCKED on CI with a pull request and a clean worktree on its head, and then as the verdict says: review, one more counted fix round, or nothing. |
| RunnerHandovers.RunReachesItsOwner | src/nyan_shop_bot/orchestrator/service.py:429-553 | For every task with two invocations: if the changes of its worker can be committed, CI passes for that commit and the review approves it, there is a schedule from the new run to READY_FOR_OWNER with one commit and all evidence on record, and on to COMPLETED once the owner has merged. |
| RunnerActivity.TailOutput | src/nyan_shop_bot/orchestrator/adapters.py:633-658 | The enqueued pairs are the numbered lines of the tailer over the whole sequence of reads. |
| RunnerActivity.TailEqualsFileExactly | src/nyan_shop_bot/orchestrator/adapters.py:633-658 | For any chunking the tailer's pairs equal file enumeration if and only if no line break other than LF is followed by a character. |
| RunnerActivity.ReplayCompletesLiveDelivery | src/nyan_shop_bot/orchestrator/service.py:1811-1841 | Whatever part of the file's lines was delivered live, in any order or repeated, replay leaves exactly one event per visible line and leaves other streams alone. |
| RunnerActivity.EventShowsItsLine | src/nyan_shop_bot/orchestrator/service.py:1767-1841 | After the replay the event at the position of a visible line shows that very line, whoever recorded it. |
| RunnerActivity.TailThenCatchUp | src/nyan_shop_bot/orchestrator/store.py:897-944 | The whole path from chunks through live delivery to the replay, through the store with its session pin: live delivery may be refused line by line; the replay completes if and only if the file names no session but the persisted one, and then every visible line has exactly one event, which shows it. |
| OfferKeys.KeyRoundTrip | src/nyan_shop_bot/catalog/curation/service.py:43-69 | Decoding an encoded valid reference gives it back. |
| OfferKeys.AcceptsExactlyTheImage | src/nyan_shop_bot/catalog/curation/service.py:49-69 | A key decodes to a reference if and only if the reference is valid and the key is its encoding. |
| OfferKeys.EncodingIsInjective | src/nyan_shop_bot/catalog/curation/service.py:43-46 | Different references have different keys. |
| OfferKeys.KeyFitsExactly | src/nyan_shop_bot/catalog/curation/models.py:38 | The 512-character limit admits exactly product ids of at most 378 or 376 bytes, by supplier. |
| OfferKeys.PadBitsAreRejected | src/nyan_shop_bot/catalog/curation/service.py:49-69 | For every id whose length is not a multiple of three, setting any pad bits of the last character gives a text that decodes strictly to the same bytes and a key that is refused as not canonical. |
| OfferKeys.StandardSpellingIsRejected | src/nyan_shop_bot/catalog/curation/service.py:49-69 | The same for every "-" or "_" of any key spelled "+" or "/". |
| OfferKeys.StrictDecodeExactlyAliases | src/nyan_shop_bot/catalog/curation/service.py:49-69 | A text decodes to given bytes if and only if it spells their encoding up to pad bits and those two letters. |
| OfferKeys.AliasesAreRejectedExactly | src/nyan_shop_bot/catalog/curation/service.py:49-69 | Of the spellings of an acceptable id exactly the encoder's is accepted and every other is refused as not canonical. |
| Curation.TableRefinesDocument | src/nyan_shop_bot/catalog/curation/repository.py:43-133 | Table and document answer every load and save alike, and stay related if and only if the save does not write an invalid document. |
| Curation.TableRunsLikeDocument | src/nyan_shop_bot/catalog/curation/repository.py:43-159 | Over any history of saves, none of which writes an invalid document, the table stands for the in-memory document. |
| Curation.OversizedSaveHidesTheCatalog | src/nyan_shop_bot/catalog/curation/repository.py:104-133 | A refused oversized save has replaced the row; loading then fails, and the in-memory document is unchanged. |
| CurationSize.OversizedExactlyInWindow | src/nyan_shop_bot/catalog/curation/models.py:130-146 | A valid request becomes an oversized document exactly when its JSON is within the growth of its offers from the limit, the growth being the sum over the offers of reference JSON less key JSON, less nine bytes and the change of digits of the revision. |
| CurationSize.OversizedRequestHidesTheCatalog | src/nyan_shop_bot/catalog/curation/repository.py:104-133 | Five hundred listings of one two-byte offer and 1,970 other bytes each make a valid first request whose document the table stores and can then no longer load. |
| Curation.RevisionCountsSaves | src/nyan_shop_bot/catalog/curation/repository.py:146-159 | After any history the revision is the number of accepted saves. |
| Curation.AtMostOneWins | src/nyan_shop_bot/catalog/curation/repository.py:146-159 | Two accepted saves never expected the same revision, in any history. |
| Curation.InMemoryRepository.Save | src/nyan_shop_bot/catalog/curation/repository.py:146-159 | The new document and result: conflict, refusal without change, or the next revision. |
| Curation.PostgresRepository.Load | src/nyan_shop_bot/catalog/curation/repository.py:43-67 | No row reads as the empty document at revision 0; an invalid row is refused. |
| Curation.PostgresRepository.Save | src/nyan_shop_bot/catalog/curation/repository.py:69-133 | The new row and result: insert at revision 0, conditional update after, validation last. |
| CurationWorkspace.BuildOffers | src/nyan_shop_bot/catalog/curation/service.py:122-164 | The loop's offers and resolved set are those of the live products and their assignments. |
| CurationWorkspace.OnlySizeCanRefuse | src/nyan_shop_bot/catalog/curation/models.py:123-208 | For a valid request the decoded document passes its validator if and only if it is within the document size limit. |
| CurationWorkspace.AssignmentByKeys | src/nyan_shop_bot/catalog/curation/service.py:122-164 | A product is assigned to a listing if and only if that listing's keys name it. |
| CurationWorkspace.WorkspaceShowsDocument | src/nyan_shop_bot/catalog/curation/service.py:122-169 | The workspace of any valid document shows its listings by their keys in sort order, each live offer with exactly the listing that names it, and how many named references no live product answers. |
| CurationWorkspace.SaveReturnsTheRequest | src/nyan_shop_bot/catalog/curation/service.py:247-281 | An accepted save returns the requested listings in sort order with the same keys, nothing unresolved, each live offer assigned to exactly the listing naming it, one revision later. |
| CurationWorkspace.StoredExactlyWhen | src/nyan_shop_bot/catalog/curation/service.py:260-281 | A valid request is stored if and only if every live product has a valid id, the revision is current, the keys decode, the offers are in the snapshot and the document fits. |
| CurationWorkspace.SaveAnswersExactly | src/nyan_shop_bot/catalog/curation/service.py:260-281 | The answer of a save, refusal by refusal in the order of the checks: products without a valid reference, keys that do not decode, offers that are not there, another revision, a document or an offer past its contract; otherwise the workspace of the saved document. |
| CurationWorkspace.StoredSaveIsAnsweredExactlyWhenOffersFit | src/nyan_shop_bot/catalog/curation/service.py:260-281 | A stored save is answered if and only if every live product, requested or not, has a valid id and a key, name and description within the limits of the offer contract. |
| CurationWorkspace.OverlongKeyIsSavedThenRefused | src/nyan_shop_bot/catalog/curation/models.py:211-222 | A valid first save of one live offer, beside a live product with a valid id of more than 378 bytes, is stored and then refused. |
| CurationWorkspace.OverlongTextIsSavedThenRefused | src/nyan_shop_bot/catalog/curation/models.py:211-222 | The same when the saved offer itself has a name or description past its limit. |
| CurationWorkspace.TableSavesAlike | src/nyan_shop_bot/catalog/curation/service.py:260-281 | Over the table a save of a valid request answers as over the document, and the stores part if and only if it reaches the write at the current revision with a document past the size limit. |
| CurationWorkspace.TableStoresExactlyWhen | src/nyan_shop_bot/catalog/curation/service.py:260-281 | The table stores a save if and only if it reaches the repository and the revision is current, whatever the document's size. |
| Storefront.CollectEvidence | src/nyan_shop_bot/catalog/curation/service.py:190-198 | The loop's map holds, for each reference, the last live product that has it. |
| Storefront.CheckLinks | src/nyan_shop_bot/catalog/curation/service.py:206-215 | The loop's count and flag are the missing links and whether a known link has stock. |
| Storefront.BuildItems | src/nyan_shop_bot/catalog/curation/service.py:200-227 | The items of the visible listings in order, and the total number of missing links over them. |
| Storefront.EvidenceIsLastOffer | src/nyan_shop_bot/catalog/curation/service.py:190-198 | The evidence of a reference is the last live product that has it, and exists exactly if one does. |
| Storefront.StorefrontShows | src/nyan_shop_bot/catalog/curation/service.py:171-237 | The storefront of a valid document shows exactly its visible, priced listings, once each and by sort order, with their own content and price and the stock their links tell; it counts exactly the links no live product answers, is partial exactly if there are any or the source says so, empty exactly if nothing is shown, and refused exactly if something is shown and a live product has no valid reference. |
| Storefront.AvailabilityMeans | src/nyan_shop_bot/catalog/curation/service.py:206-215 | IN_STOCK if and only if a known product has stock; OUT_OF_STOCK if and only if every link is known and empty. |
| Storefront.MoreEvidenceNeverFlips | src/nyan_shop_bot/catalog/curation/service.py:206-215 | More evidence keeps every definite answer. |
| Storefront.MoreProductsAreConservative | src/nyan_shop_bot/catalog/curation/service.py:171-237 | Reading more products keeps the listings and every definite answer, and never raises the unresolved count. |
| Storefront.ResponseIsValid | src/nyan_shop_bot/catalog/storefront/models.py:81-101 | Every response built from a valid document passes the response validator, and its unresolved count is the number of missing links over visible listings. |
| Registry.ReadAggregate | src/nyan_shop_bot/catalog/registry.py:158-208 | The result of both loops is the merge of the two sources' contributions with their reports. |
| Registry.MergeShowsResponses | src/nyan_shop_bot/catalog/registry.py:141-204 | A response of the right source and mode comes through with all its items in its own order and is reported field by field; a reader that raised, or a response of another source or mode, gives no items and an ERROR report. |
| Registry.StateShowsResponses | src/nyan_shop_bot/catalog/registry.py:192-205 | The view is COMPLETE exactly when some source supplies items and both came back clean, PARTIAL exactly when one supplies items and one did not come back clean, EMPTY exactly when both say so, and ERROR otherwise; the omitted counts are added. |
| Registry.Drain | src/nyan_shop_bot/catalog/registry.py:186-190 | The queue loop yields the round-robin interleaving. |
| Registry.MergePassesItsValidator | src/nyan_shop_bot/catalog/models.py:389-430 | For valid responses, failures included, the reports are valid, each source's usable items appear once in order, and the aggregate validator passes if and only if neither source lists an id twice. |
| Registry.KeepsBothSources | src/nyan_shop_bot/catalog/registry.py:186-190 | Restricting the interleaving to a source gives that source's items. |
| Registry.PrefixIsBalanced | src/nyan_shop_bot/catalog/registry.py:186-190 | In every prefix the first source leads by none or one until one source is exhausted. |
| Registry.ReportsAreValid | src/nyan_shop_bot/catalog/models.py:338-374 | The report of a valid response, an invalid one or a failure passes its validator and counts what the source contributes. |
| Callbacks.DecodeInvertsEncode | src/nyan_shop_bot/bot/callbacks.py:69-142 | Decoding inverts every encoder of both versions. |
| Callbacks.EncodeInvertsDecode | src/nyan_shop_bot/bot/callbacks.py:176-253 | A string is accepted if and only if it is the encoding of what it decodes to. |
| Callbacks.EncodesExactly | src/nyan_shop_bot/bot/callbacks.py:69-142 | A callback is encoded exactly if its version, action, source and identifiers go together, and then exactly to its text. |
| Callbacks.EncodingsAreDistinct | src/nyan_shop_bot/bot/callbacks.py:69-142 | No two callbacks, of either version, share a string. |
| Callbacks.EncodingsFit | src/nyan_shop_bot/bot/callbacks.py:57-142 | After identifier validation the length check cannot fail: every encoding has at most 64 bytes. |
| Callbacks.LongestQuoteIsExact | src/nyan_shop_bot/bot/callbacks.py:160-173 | A source-bound quote has 64 bytes if and only if both identifiers have the longest length. |
| Callbacks.NothingIsNotCanonical | src/nyan_shop_bot/bot/callbacks.py:176-253 | The canonical and length refusals of the decoder are unreachable. |
| Pagination.InRangePagesAreNonEmpty | src/nyan_shop_bot/suppliers/khommo/models.py:276-316 | For an in-range page the negative-count branch is unreachable, the page has between one and `limit` items, and exactly that count is accepted. |
| Pagination.AcceptsExactly | src/nyan_shop_bot/suppliers/khommo/models.py:276-316 | Exactly the pages that are accepted, empty catalogs and pages out of range included: as many pages as cover the total, all full but the last, which holds the rest. |
| Pagination.PagesSumToTotal | src/nyan_shop_bot/suppliers/khommo/models.py:276-316 | The accepted counts of pages 1..total_pages sum to the total. |

## Left out

- RunnerGate.OwnerGateIsSound: for runs the present loop starts, whose `_block` never writes the error of a failed CI run; runs with such a row are covered by the exact conditions beside it.
- RunnerChain.CommitsAreNeitherLostNorStacked: excludes anyone but the runner moving HEAD; a moved HEAD is refused by the code, and `RunnerChain.AcceptedHeadIsAChain` covers it.
- RunnerStore.StateStore.UpdateRun: sets the checkpoint columns and the worker session only; `update_run` also admits usage, lease and agent columns, which no caller passes.
- RunnerLeases.GuardedRunsKeepAgentUnderLease: excludes stale-lease clearing under a registered agent, because the code then breaks the property.
- RunnerHandovers.StopRuns: takes the registered agent as gone; while one lives `_stop_run` defers and writes nothing, which in the machine is a command that does not go on.
- RunnerHandovers.RecoveryRuns: takes the writer session, the issue and the pull request as still valid; a check that fails there is a command that does not go on.
- RunnerActivity.TailThenCatchUp: requires a stream in which no break other than LF is followed by a character; CR needs nothing, since the text files translate it.
- Registry.ReadAggregate: the two live sources the registry allows, not a list of any length.
- `orders/service.py` and the run loop of `orchestrator/service.py` are step machines over explicit program positions, not loops and coroutines, so that steps interleave and stop anywhere; the repositories and the store below them are classes.
- Audit events other than agent activity, timestamps, heartbeats, `list_recent` and the status view: display and bookkeeping.
- Deadlines, sleeps, session and integrity checks of the run loop: any step may raise, which covers them.
- Claims in the run machine: the claim theorems hold for any history of store calls. A CI recovery that the claim guard refuses is one that does not write, and the machine does not say when a claim is released.
- Listening to processes, watchdogs, Windows jobs and signals: a process identity names one incarnation, and an acknowledgement of containment is a fact.
- Path globbing, the walk for reparse points and the UI policy files: sets of permitted, escaping and forbidden paths.
- The request and the sort of `_exact_sha_runs`: a poll carries the newest run of the head.
- GitHub labels, comments, pull-request creation, prompts, auto-merge (it always raises) and starting the next task.
- Text checks (printable, trimmed, NFC, UTF-8, patterns, lengths of texts) are arbitrary sets of texts; the display fields of a listing are one value, and the JSON size of one is an arbitrary number.
- `uuid5`, SHA-256 and git object names are free constructors, so distinct inputs have distinct names.
- SQL, locking, isolation and schema migration: each transaction is one atomic step.
- The fallback order of catalog reads in `_read_products`, `get_storefront_product` and the administration drafts.
- HTTP, FastAPI, aiogram, settings and the web client.
- The KhoMMO purchase journal and the other supplier readers.
