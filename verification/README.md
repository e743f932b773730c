# StorePulse: ingestion, producer ledger, cleanup and refresh, verified

This project models the parts of StorePulse whose correctness depends on interleavings, and proves what
they guarantee.

* **The event table** (`Events`, `LastSeen`, `Responses`). A table is the sequence of rows in commit order. `Legal` says that
  every row was admissible when it was committed. `Judge` and `Ingest` are one ingestion call with nobody
  else running; `AcceptedExactly`, `KnownIdVerdicts`, `MissingExactly` and `RefusalsExactly` say on the rows
  themselves when each verdict is given.
* **Concurrent ingestion** (`Sessions`, `Refinement`, `Guarantees`, `Linearizability`, `IdenticalCalls`, `Progress`,
  `Races`). Any number of calls step through their SQL statements; each statement is atomic and sees the
  committed rows (READ COMMITTED), row locks and uncommitted inserts make others wait, and any call can be
  rolled back at any point, or commit while its caller gets an error. Main results: `Linearizability.DisciplinedIngestionIsLinearizable` and
  `IdenticalCalls.RefundAcceptedOnceExactly`.
* **Ingestion in place** (`EventStores`). The same functions written as methods of a mutable store with the
  transaction's lock; what other callers commit between its statements are parameters.
* **The producer** (`Settings`, `Ledgers`, `Producers`, `Accounts`, `Runtimes`, `Transport`, `RetryLoop`). The refund
  ledger, once as a value and once as the mutable class it is; the bounded queue with its workers and their
  POSTs, as a step system and as an object that keeps its invariants; the retry loop with its backoff, and
  the proof that a worker of the step system is that loop.
* **Producers and backend together** (`Delivery`, `Agreement`, `Receipts`, `Overstatement`, `Fleets`). A network that
  loses, delays and repeats requests and responses, other clients at work, transactions ended at will, and in
  `Fleets` any number of producers. Main results: `Agreement.ExactlyOnce` (for any retry limit) and
  `Overstatement.AgreementNeedsUnlimitedRetries` (the ledger agrees with the backend in every history exactly
  when retries are unlimited).
* **Cleanup of a verification run** (`Cleanup`, `RunRows`, `Harness`, `WholeRun`). Which rows belong to the run, the
  transaction that removes them, and the shutdown and restart around it under every pattern of failures,
  with the backend writing whenever it is up. Main result: `WholeRun.NothingOfTheRunIsLeft`.
* **The dashboard's refresh** (`Refresh`). Coalesced refreshes with one timer, one fetch and one pending flag.

## What the code does not guarantee

* "The original is not a SALE" can be answered although no one-at-a-time order of the calls gives that answer:
  between the first lookup of the refund's id and the lock on its original, the id can be used by another
  payload and the original can appear. `Races.InvalidOriginalCanRace` is a concrete run. When
  each id is used for one payload the verdict is always a sequential one
  (`Linearizability.InvalidOriginalIsSequentialForOnePayload`);
  `Refinement.InvalidOriginalIsSequentialExactly` says for every run when the verdict is sequential.
* With a finite `MAX_RETRY_ATTEMPTS` the ledger can promise more than the backend will refund: a committed refund
  whose response was lost, and all of whose further POSTs were lost, is rolled back locally.
  `Overstatement.LedgerCanOverstate` builds such a history for every configuration with a limit, with exactly
  the POSTs the limit allows. The exact condition is the configuration's: the limit is 0.
* The cleanup transaction fails exactly when a refund that is *not* of the run references a sale of the run
  (`Cleanup.TransactionSucceedsExactly`). It does not matter what the run's own refunds reference.

## Assumptions

* PostgreSQL at READ COMMITTED: a statement is one atomic step on the committed rows and the session's own insert.
  Stores and products are seeded and do not change.
* Payloads satisfy the request schema (`backend/app/schemas.py:32-52`): positive quantity and amount.
* Generated event ids are version 4 UUIDs nobody has used, as an id or as a reference (section 5.4 of RFC 9562).
* Other clients do not use the producer's event ids and do not refund its sales.
* Nothing but the backend and the harness writes the tables, so nothing writes behind the stopped backend.
* The transactions of a backend that is confirmed stopped have ended when the cleanup transaction starts.
* A producer that is confirmed stopped sends nothing more, and its open connections end with the backend they
  were made to.
* A closed WebSocket delivers no more messages.

## Model

| member | source | states |
|---|---|---|
| Events.AcceptedExactly | docs/REFUNDS.md:27-40 | A call is accepted if and only if its id is new, its store and product exist and, for a refund, a top-level SALE of the same store and product has room left in quantity and in money; the table stays legal, and a refused call changes nothing |
| Events.KnownIdVerdicts | backend/app/event_ingestion.py:92-139 | A call answers duplicate if and only if its id is stored and the stored row is exactly this payload's row, with that row's `received_at`, and conflict if and only if the id is stored with anything else |
| Events.MissingExactly | backend/app/event_ingestion.py:239-250 | Unknown store, unknown product and original-not-found are answered exactly when the id is new and that is the first thing missing |
| Events.RefusalsExactly | docs/REFUNDS.md:42-53 | For each of not-a-SALE, store mismatch, product mismatch, quantity limit and amount limit: the verdict is given if and only if the original row in the table is the cause, in that order of precedence |
| Events.ClassificationIsPathIndependent | backend/app/event_ingestion.py:99-139 | Comparing store code and SKU (early path) and comparing ids (later paths) classify alike, and "duplicate" means all producer fields agree |
| Events.IdsAreUnique | backend/app/models.py:42-100 | No event id is stored twice in a legal table |
| Events.RefundFollowsItsSale | backend/app/event_ingestion.py:239-266 | Every REFUND row points to an earlier-committed top-level SALE of the same store and product: references have depth one |
| Events.RefundsStayWithinSale | docs/REFUNDS.md:36-40 | Refunds of a sale never exceed its quantity nor, independently, its amount |
| Events.FindIsStable | backend/app/event_ingestion.py:160-186 | A stored row is found unchanged in every later legal table |
| Events.AcceptedIsSeen | backend/app/event_ingestion.py:189-202 | After an accepted call the table has one more row, with the receipt's time, the store of the payload's code was last seen at that time and every other store as before; any other call leaves all last-seen times |
| LastSeen.RunIsSeen | backend/app/event_ingestion.py:189-202 | Over every concurrent run each store was last seen when the last of its rows that the run committed was received, in commit order, and a store without a new row is as it was |
| LastSeen.SeenExactly | backend/app/event_ingestion.py:189-202 | From an empty database a store has a last-seen time exactly when it has a row, and it is the `received_at` of its last row in commit order |
| Responses.RowRoundTrips | backend/app/event_ingestion.py:160-186 | Every producer field of a payload can be read back from its stored row, and the row's time is the receipt's |
| Responses.DuplicateIsTheStoredPayload | backend/app/event_ingestion.py:71-139 | A stored id answers duplicate if and only if the payload is the one its row tells, in every field, and conflict otherwise |
| Responses.StatusAsDocumented | docs/REFUNDS.md:42-53 | Each HTTP status, by what is in the table: 201 exactly for a new valid event, 200 for an exact retry, 409 for a taken id or an exceeded limit, 404 for a missing store, product or original, 422 for a wrong reference, and nothing else |
| Sessions.StepKeepsInv | backend/app/event_ingestion.py:205-340 | Every step of every session keeps the global invariant: legal table, correct locals of each session, exclusive sale locks, exclusive uncommitted ids, evidence behind each verdict |
| Sessions.RunKeepsInv | backend/app/event_ingestion.py:205-340 | Every reachable state satisfies that invariant |
| Sessions.FreshIsInv | backend/app/event_ingestion.py:205-340 | Any legal table with no calls under way satisfies the invariant |
| Sessions.OthersCommitIsHarmless | backend/app/event_ingestion.py:298-333 | Another session's commit leaves a session's lookup, lock and limit facts true |
| Sessions.EvidenceSurvivesCommit | backend/app/event_ingestion.py:281-284 | What justified a refusal is still true after any later commit |
| Sessions.CommittedRowIsAdmissible | backend/app/event_ingestion.py:321-340 | The row a session commits fits the table it is committed to, not only the table it was validated on |
| Refinement.StepRefines | backend/app/event_ingestion.py:189-202 | A step either writes nothing or is exactly one sequential call that is accepted |
| Refinement.CommitIsAccepted | backend/app/event_ingestion.py:189-202 | A session about to commit is one the sequential call accepts on the table as it is committed then |
| Refinement.RunRefines | backend/app/event_ingestion.py:205-340 | The database after any interleaved run is the accepted calls applied one at a time in commit order, each accepted when its turn comes |
| Refinement.LockFreezesSums | docs/REFUNDS.md:57-79 | While a session holds a sale, no other session's step changes that sale's refund sums |
| Refinement.VerdictsAreSequential | backend/app/event_ingestion.py:205-340 | Every verdict of every run, except errors from outside and not-a-SALE, is the sequential verdict on the committed table at a moment while its call was in flight |
| Refinement.InvalidOriginalIsSequentialExactly | backend/app/event_ingestion.py:251-252 | Not-a-SALE is a sequential verdict of the call if and only if the refund's own id is not stored or its original was committed before that id |
| Races.AloneIsIngest | backend/app/event_ingestion.py:205-340 | The statement-by-statement program run undisturbed answers and writes what the sequential call does |
| Races.CallAlone | backend/app/event_ingestion.py:205-340 | A whole call while everyone else is quiet is one sequential call in the interleaved system |
| Races.InvalidOriginalCanRace | backend/app/event_ingestion.py:239-253 | There is a run in which not-a-SALE is the sequential verdict at no moment of the call |
| Guarantees.RefundsInFlightStayWithinSale | docs/REFUNDS.md:57-77 | In every reachable state, committed refunds plus all validated uncommitted ones stay within the sale, in each measure |
| Guarantees.LockLastsUntilTheEnd | backend/app/event_ingestion.py:239-253 | The original is locked as soon as it is found, also when it is not a SALE, and stays locked until the call is done |
| Guarantees.UnrelatedCallsDoNotWait | docs/REFUNDS.md:77 | Calls for different stores that share neither event id nor original never wait for each other |
| Guarantees.InsertIsWellFormed | backend/app/models.py:86-98 | No insert violates a CHECK constraint or a foreign key, also when a refund's id equals its original's |
| Guarantees.LostRefundInsertIsConflict | backend/app/event_ingestion.py:321-333 | A refund whose insert returns no row always ends in a conflict, never as a duplicate |
| Guarantees.InternalErrorsAreUnreachable | backend/app/event_ingestion.py:99-116 | The errors about rows that are not visible or reference a missing store or product cannot be raised |
| Guarantees.ReceiptMeansRecorded | backend/app/event_ingestion.py:135-139 | Whoever holds an accepted or duplicate receipt has a row equal to the payload, with the receipt's `received_at` |
| Guarantees.StoredIsFinal | backend/app/event_ingestion.py:92-139 | Once a payload is stored, whether or not its caller learned it, every decided call with it was accepted itself or holds the stored row's receipt, or was told original-not-found, or ended with an error from outside |
| Guarantees.RefusalsAreFinal | docs/REFUNDS.md:55-81 | Beside an accepted call every other call with the same payload, earlier, later or delayed, got the same receipt, original-not-found or an error from outside: no limit, mismatch, not-a-SALE or conflict refusal coexists with acceptance |
| Guarantees.AtMostOneAccepted | backend/app/event_ingestion.py:160-202 | An event id is accepted at most once, whatever payloads use it |
| Guarantees.RowsComeFromCommits | backend/app/event_ingestion.py:189-202 | Every row a run added is exactly the payload of one of its calls, which was accepted or whose commit took effect while its caller got an error |
| Guarantees.SeveredIsStored | backend/app/event_ingestion.py:196-197 | A call that is cut off while it commits has stored its payload |
| Linearizability.InvalidOriginalIsSequentialForOnePayload | backend/app/event_ingestion.py:239-253 | Not-a-SALE is the sequential verdict at a moment of the call whenever its id is requested for one payload only |
| Linearizability.IngestionIsLinearizable | backend/app/event_ingestion.py:205-340 | From any legal table and for any actions: the table stays legal and equals the replay of the accepted calls, and every verdict is sequential except errors from outside and not-a-SALE on an id used for two payloads |
| Linearizability.DisciplinedIngestionIsLinearizable | backend/app/event_ingestion.py:205-340 | With one payload per id, every verdict but an error from outside is the sequential verdict at a moment of its call |
| IdenticalCalls.SaleGetsReceipt | backend/app/event_ingestion.py:205-236 | A finished SALE call whose id only its payload uses got a receipt |
| IdenticalCalls.ExactlyOneSaleAccepted | backend/app/event_ingestion.py:205-236 | Any number of identical SALE calls, in any complete schedule in which no call is ended from outside: exactly one accepted, all others duplicates with the same `received_at` |
| IdenticalCalls.RefundGetsReceiptOrLimit | backend/app/event_ingestion.py:287-340 | A finished refund call of a stored matching sale, whose id only its payload uses, got a receipt or a limit refusal |
| IdenticalCalls.IdenticalRefundsShareOneFate | backend/app/event_ingestion.py:287-340 | Any number of identical refunds among any other calls: exactly one accepted and all others duplicates with its `received_at`, or all refused by a limit; never both |
| IdenticalCalls.RefundAcceptedOnceExactly | backend/tests/test_refund_ingestion.py:344-368 | When nobody else refunds that sale, exactly one of the identical refunds is accepted and the others are duplicates if and only if the refund fits what was left of the sale; otherwise all are refused by a limit |
| Progress.WaitsPointForward | backend/app/event_ingestion.py:239-253 | Every wait points to an unfinished session strictly further in the order sale lock, event id, store row |
| Progress.SomeoneCanMove | backend/app/event_ingestion.py:205-340 | From any unfinished session, following the waits reaches one that can move: no deadlock |
| Progress.AdvanceMakesProgress | backend/app/event_ingestion.py:205-340 | A turn given to a session that can move lowers a ranking; any other turn changes nothing |
| Progress.ActionKeepsOrLowersWork | backend/app/event_ingestion.py:205-340 | Nothing but a new call raises the ranking, and what does not lower it changes nothing |
| Progress.FairRunsFinish | backend/app/event_ingestion.py:205-340 | Under fair scheduling, with calls ended from outside in between but no new calls, every call finishes within as many rounds as there are statements left |
| EventStores.EventStore.ClassifyExisting | backend/app/event_ingestion.py:92-139 | Returns the path-independent classification, with or without store and product given |
| EventStores.EventStore.FindStore | backend/app/event_ingestion.py:48-53 | Returns the one store id with this code, and unknown store exactly when no stored store has it |
| EventStores.EventStore.FindProduct | backend/app/event_ingestion.py:56-62 | Returns the one product id with this SKU, and unknown product exactly when no stored product has it |
| EventStores.EventStore.InsertEvent | backend/app/event_ingestion.py:160-186 | Appends the payload's row and returns its timestamp, or changes nothing when the id is taken |
| EventStores.EventStore.CommitAccepted | backend/app/event_ingestion.py:189-202 | Behind the insert of a payload acceptable on the rows before it, the commit completes exactly the one sequential call, and releases the lock |
| EventStores.EventStore.LockOriginalSale | backend/app/event_ingestion.py:239-253 | Takes the lock of a found row, returns it only if it is a top-level SALE, and otherwise the error that the lookup gives |
| EventStores.EventStore.ValidateRefundReference | backend/app/event_ingestion.py:256-284 | Raises nothing if and only if store and product match and the refund fits both sums, and otherwise the first mismatch or limit that applies |
| EventStores.EventStore.IngestLocked | backend/app/event_ingestion.py:300-340 | The part behind the lock: sequential at the re-check or at the insert, because the sums cannot move in between |
| EventStores.EventStore.IngestSale | backend/app/event_ingestion.py:205-236 | Whatever is committed while the insert waits, answer and store are those of the sequential call, before or after those commits |
| EventStores.EventStore.IngestRefund | backend/app/event_ingestion.py:287-340 | Whatever others commit before the lock and, sparing the locked sale, between all later statements: an acceptance is the sequential call on the final table, every other verdict but not-a-SALE is sequential at one of three moments, a refusal writes nothing, and the lock is released |
| Ledgers.EventTimeBounds | simulator/simulator/domain.py:60-73 | Event time is never before its lower bound, and later than now only when the bound is |
| Ledgers.EventIsAsDrawn | simulator/simulator/domain.py:81-156 | Every field of a generated event: a refund exactly when wanted and possible, its price by the unit, its date by the lateness and the sale's date, its late mark, and what it takes from the ledger |
| Ledgers.RollbackUndoesReservation | simulator/simulator/domain.py:116-169 | Rolling back a just generated refund restores the ledger exactly |
| Ledgers.RepeatedCommitKeepsCapacity | simulator/simulator/domain.py:158-160 | Delivering a sale again after refunds of it does not reset its capacity |
| Ledgers.TrafficGenerator.MakeSale | simulator/simulator/domain.py:81-106 | Produces the sale's payload and a fresh full entry, and leaves the ledger alone |
| Ledgers.TrafficGenerator.MakeRefund | simulator/simulator/domain.py:108-149 | Nothing exactly when no sale is refundable; otherwise the refund's payload, with just its reservation taken from just its entry |
| Ledgers.TrafficGenerator.MakeBusinessEvent | simulator/simulator/domain.py:151-156 | Event and ledger after it are those of the value ledger |
| Ledgers.TrafficGenerator.Commit | simulator/simulator/domain.py:158-160 | Files a delivered sale's entry unless there is one, and keeps all other entry objects |
| Ledgers.TrafficGenerator.Rollback | simulator/simulator/domain.py:162-169 | Gives back a refund's reservation to its sale and nothing else |
| Ledgers.TrafficGenerator.MakeDuplicate | simulator/simulator/domain.py:171-176 | The replay has the same payload, is not replayed again, and its delivery or failure never touches the ledger |
| Producers.TransitChanges | simulator/simulator/runtime.py:50-152 | In any measure, a move changes what is in transit by what it generates, delivers or gives up |
| Producers.NextIsBalanced | simulator/simulator/runtime.py:50-152 | Generated equals in transit plus delivered plus failed, in any measure, after every move |
| Producers.NextIsAccounted | simulator/simulator/runtime.py:23-152 | Every move keeps: the counters add up, unfinished tasks are the queued and held events, and the queue bound holds |
| Producers.NextKeepsPosts | simulator/simulator/runtime.py:76-138 | Every move keeps: the retry counter plus the receipts is the number of POSTs behind receipts, and no delivery or replay posts more often than the limit allows |
| Producers.NextIsInOrder | simulator/simulator/runtime.py:50-77 | Every move keeps: what was generated is what was taken, then the queue, then the blocked put, in this order; and a worker gets the head of the queue |
| Producers.NextIsCountedByKind | simulator/simulator/runtime.py:23-152 | Every move keeps: each replay begun is counted by its end or under way, and refunds and sales are counted apart |
| Producers.OutcomeIsFollowed | simulator/simulator/runtime.py:114-152 | A delivery to be replayed goes on with the same event as one task still to be done; any other end leaves the worker idle and its task done |
| Producers.PutBlocksExactly | simulator/simulator/runtime.py:63 | A put blocks if and only if the queue is full |
| Producers.RunConserves | simulator/simulator/runtime.py:23-152 | Balance, counters, queue bound and the retry counter's POSTs over every run, for any number of workers |
| Producers.RunIsInOrder | simulator/simulator/runtime.py:50-152 | Over every run delivery starts in generation order, and replays and kinds are counted |
| Producers.FullQueueDrains | docs/SIMULATOR.md:61-64 | With a full queue and a blocked put every worker can still move, whatever it is doing, and a take lets the put through |
| Accounts.NextIsSound | simulator/simulator/domain.py:81-169 | Every move keeps each ledger entry backed by its delivered sale and all refunds that did not fail, and every event at the catalog price of its product |
| Accounts.RunIsSound | simulator/simulator/domain.py:81-169 | The same over every run |
| Accounts.RunIsFiled | simulator/simulator/domain.py:158-160 | Over every run each delivered sale is in the ledger, whether its receipt said accepted or duplicate |
| Accounts.LedgerIsConserved | simulator/simulator/domain.py:60-169 | Remaining plus refunds in transit plus refunds delivered is what was sold, in quantity and in money; amount is unit price times quantity, both non-negative; no refund is dated before its sale |
| Runtimes.Runtime.Report | simulator/simulator/runtime.py:155-175 | The reported counters add up with the queue, the blocked put and the workers that await a receipt, by kind and with the replays; the queue keeps its bound; each counted retry is a POST behind a receipt that was not the first |
| Runtimes.Runtime.EntryAddsUp | simulator/simulator/domain.py:116-169 | In every state of the object, what remains of a filed sale, its refunds under way and those delivered are what was sold |
| Runtimes.Runtime.Traffic | simulator/simulator/runtime.py:50-63 | One turn of the traffic loop is the Generate move and keeps all runtime invariants |
| Runtimes.Runtime.TrafficResumes | simulator/simulator/runtime.py:63 | A blocked put that goes through is the ResumePut move and keeps them |
| Runtimes.Runtime.Get | simulator/simulator/runtime.py:76-77 | The worker gets the event at the head of the queue, which is the Take move, and the invariants are kept |
| Runtimes.Runtime.Post | simulator/simulator/transport.py:50-54 | One POST is the Send move and keeps them |
| Runtimes.Runtime.TryAgain | simulator/simulator/transport.py:81-85 | A POST to be repeated, below the limit, is the Retry move and keeps them |
| Runtimes.Runtime.Delivered | simulator/simulator/runtime.py:96-118 | A receipt for the delivery is the Deliver move, counted with the worker's own POSTs, and keeps them |
| Runtimes.Runtime.Failed | simulator/simulator/runtime.py:86-95 | An error of the delivery is the Fail move and keeps them |
| Runtimes.Runtime.Replayed | simulator/simulator/runtime.py:119-152 | The end of a replay is the ReplayDone move, never touches the ledger, and keeps them |
| Transport.AnswersAreUnderstood | simulator/simulator/transport.py:58-79 | Of the backend's answers, receipts are taken as deliveries, refusals as permanent and internal failures as transient |
| Transport.RepeatedExactly | simulator/simulator/transport.py:12-13 | A POST is repeated exactly after a transport failure, a success without a usable status, or one of the seven transient statuses |
| Transport.BaseIsMonotoneAndCapped | simulator/simulator/transport.py:31-35 | The backoff base is non-negative, never decreases and never passes the cap |
| Transport.BaseDoubles | simulator/simulator/transport.py:31-35 | The first base is the initial delay, and each further base is the smaller of twice the last and the cap |
| Transport.DelayReachesBothEnds | simulator/simulator/transport.py:36-39 | The draw reaches both ends of the jitter band |
| Transport.DelayIsNearBase | simulator/simulator/transport.py:36-39 | Each delay is within the jitter ratio of its base, and not negative |
| Transport.TotalDelayIsBounded | simulator/simulator/transport.py:31-85 | After k failures the sleep is at least (1 − jitter) times the sum of the bases and at most (1 + jitter) · min(k · max, initial · (2^k − 1)) |
| Transport.UncappedIsGeometric | simulator/simulator/transport.py:31-35 | Until the cap is reached the bases add up to initial · (2^k − 1) |
| Transport.FirstDefinitive | simulator/simulator/transport.py:58-79 | The position before which all answers are retryable and at which one is not |
| Transport.ExhaustedExactly | simulator/simulator/transport.py:81-84 | Exhaustion is reported if and only if there is a limit and the first that many answers are all retryable |
| Transport.ConclusionExactly | simulator/simulator/transport.py:58-79 | A receipt or permanent error is the last POST's answer, with its status, behind retryable ones only and within the limit; the loop waits exactly as long as all answers are retryable and the limit leaves another |
| Transport.PostEventWithRetry | simulator/simulator/transport.py:42-85 | The loop takes the first definitive answer within the limit; every POST carries the same payload, `attempts` counts the POSTs, and the sleep is the sum of the delays, bounded on both sides |
| RetryLoop.WorkerTakesFirst | simulator/simulator/transport.py:50-85 | Whatever the answers, a worker of the runtime makes as many POSTs as the retry loop and ends with its outcome: receipt, permanent error or exhaustion at the configured limit |
| Delivery.HappensIsLinked | simulator/simulator/runtime.py:76-152 | Every network, producer or backend step keeps the joint invariant of producer, wires and table |
| Delivery.HistoryIsLinked | simulator/simulator/runtime.py:76-152 | The same over every history |
| Agreement.GeneratedRowIsPayload | simulator/simulator/domain.py:81-149 | A row under a generated id is that generated payload |
| Agreement.ExactlyOnce | docs/SIMULATOR.md:61-64 | For any retry limit and any history: a generated event has at most one row and it equals its payload, every delivered event has one, the receipt counters are deliveries plus replays, and at most one acceptance per id |
| Receipts.DeliveredOnce | simulator/simulator/runtime.py:76-118 | No event is delivered twice, over any history |
| Delivery.ReplayReceiptIsDuplicate | simulator/simulator/runtime.py:119-143 | Every receipt of a replay is a duplicate, so the branch for an accepted replay is unreachable |
| Receipts.AcceptedNeverExceedsRows | simulator/simulator/runtime.py:96-143 | For any retry limit and any history: replays are counted among the duplicates, and the accepted counter never exceeds the deliveries, nor these the rows the table gained |
| Receipts.CountersAreReceipts | simulator/simulator/runtime.py:96-143 | For any retry limit and any history: the accepted and duplicate counters are exactly the answers with that verdict that reached the worker waiting for them, each once |
| Agreement.CommittedAreAmong | simulator/simulator/domain.py:126-129 | Committed refunds of a sale never exceed the refunds they come from |
| Agreement.LedgerNeverOverstates | simulator/simulator/domain.py:116-169 | Nothing rolled back: each entry stays within what the backend will still refund |
| Agreement.GeneratedRefundFits | simulator/simulator/domain.py:126-129 | Nothing rolled back: a generated refund not stored yet still fits its sale |
| Agreement.OwnVerdictsAreReceipts | backend/app/event_ingestion.py:287-340 | Nothing rolled back: every verdict on a generated event is a receipt, unless the call ended with an error from outside |
| Agreement.NothingEverFails | simulator/simulator/runtime.py:86-126 | With unlimited retries no delivery and no replay ever fails |
| Agreement.ProducerAndBackendAgree | simulator/simulator/domain.py:116-169 | With unlimited retries, over any history: entries within the backend's remainder, only receipts, no failures |
| Overstatement.LedgerCanOverstate | simulator/simulator/transport.py:81-84 | For every configuration with a retry limit there is a history, with one POST of the sale and exactly the limit's number of POSTs of its refund, after which the ledger promises more than the backend will refund |
| Overstatement.AgreementNeedsUnlimitedRetries | simulator/simulator/runtime.py:86-87 | The ledger agrees with the backend in every history if and only if the retry limit is 0 |
| Fleets.ChronicleIsLinked | docs/SIMULATOR.md:120-129 | Any number of producers on one backend: each one's view keeps the joint invariant of producer and table, and their events stay foreign to each other |
| Fleets.FleetAgrees | simulator/simulator/domain.py:116-169 | Each producer of a fleet that retries without limit keeps its ledger within the backend's remainder, whatever the others do |
| Fleets.ChronicleHasOrigins | simulator/simulator/domain.py:81-149 | Every request and every row comes from a producer of the fleet under its own label, from the initial table, or from another client |
| Fleets.RunIsRemovable | docs/SIMULATOR.md:129 | After any history of any number of producers and other clients, if the run's tag was new and only the fleet uses it, no outside refund references the run and the cleanup transaction commits |
| Fleets.RowCarriesLabel | simulator/simulator/domain.py:95-142 | A row under a producer's id, or referring to one, carries that producer's source label |
| Cleanup.PatternMeaning | scripts/verify_simulator_smoke.py:131-132 | The LIKE pattern selects exactly the sources of the form simulator-name:tag:host with this tag |
| Cleanup.SourcesAreIsolated | docs/SIMULATOR.md:75-84 | A simulator's source matches the pattern of exactly the run whose tag it carries |
| Cleanup.LiteralRoundTrip | scripts/verify_simulator_smoke.py:127-128 | Every string reads back from its SQL literal, and the statement goes on right behind it |
| Cleanup.SurvivorsAreLegal | scripts/verify_simulator_smoke.py:235-243 | A deletion that strands no reference preserves every ingestion invariant |
| Cleanup.RefundsGoFirst | scripts/verify_simulator_smoke.py:513-516 | Deleting the run's refunds first never strands a reference |
| Cleanup.RestoreMatchesExactly | scripts/verify_simulator_smoke.py:176-208 | After the restore the mismatch count is zero if and only if no store of the snapshot is missing |
| Cleanup.TransactionSucceedsExactly | scripts/verify_simulator_smoke.py:246-260 | The transaction commits if and only if no refund from outside the run references one of its sales; it then removes exactly the run's rows, keeps the table legal and restores the stores |
| Cleanup.SalesFirstFailsExactly | scripts/verify_simulator_smoke.py:513-516 | Deleting sales first fails as soon as any refund at all references a sale of the run |
| Harness.Finalizer.StopServices | scripts/verify_simulator_smoke.py:338-371 | Succeeds exactly when a command succeeded and the listing right after it showed nothing running |
| Harness.Finalizer.VerifyNoRunRows | scripts/verify_simulator_smoke.py:425-432 | Passes exactly when the count was read and no row of the run is left |
| Harness.Finalizer.CleanupVerificationData | scripts/verify_simulator_smoke.py:506-533 | The transaction takes effect exactly when it ran and nothing outside references the run, also when its command then fails; success is reported exactly when it ran, said so, and both counts are zero |
| Harness.Finalizer.VerifyAfterRestart | scripts/verify_simulator_smoke.py:476-500 | Passes exactly when no simulator is back, no run row is back and the restored state still matches |
| Harness.Finalizer.Finalize | scripts/verify_simulator_smoke.py:435-503 | For every failure pattern and all traffic: the acts done and the site left; with an unconfirmed producer stop exactly what the backend served, with an unconfirmed backend stop the drained tables, without the transaction no row lost; one restart attempt exactly after a confirmed stop; which errors are raised, and none exactly when every barrier, the removal, its report, the restore, the restart and both final checks succeeded |
| Harness.BackendIsLeftDownExactly | scripts/verify_simulator_smoke.py:435-471 | A serving backend is left down if and only if the simulators were confirmed stopped and it went down, and its stop was not confirmed or it did not come up again |
| Harness.TablesExactly | scripts/verify_simulator_smoke.py:435-503 | What the tables are for every pattern, in terms of what the backend alone serves: untouched unless both stops are confirmed, and behind both changed by the removal exactly if it ran and nobody else refers to the run |
| Harness.StoresFollowTheEvents | backend/app/models.py:27-33 | While the backend serves, a store whose events were committed was last seen and updated when the last of them was received, and every other store row is as it was |
| Harness.Finalizer.CleanBehindBarrier | scripts/verify_simulator_smoke.py:456-471 | Behind a confirmed stop: cleanup, exactly one restart attempt, and the errors of each |
| Harness.NothingOfTheRunReturns | docs/SIMULATOR.md:129 | Whatever the backend served before its stop, if only others request after its restart, no row of a removed run is there at the final check |
| Harness.QuietRestart | docs/SIMULATOR.md:129 | Without requests after the restart the final check sees exactly the tables the transaction left, so an earlier session cannot write any more |
| Harness.OthersKeepTheirRows | scripts/verify_simulator_smoke.py:435-503 | Under every failure pattern and all traffic the table stays legal and no row from outside the run is lost |
| Harness.CleanupNeedsTheBarrier | scripts/verify_simulator_smoke.py:450-454 | Over every legal table, any new sale of the run can be inserted and uncommitted while a still serving backend's tables are cleaned, and its commit brings the run back |
| WholeRun.NothingOfTheRunIsLeft | docs/SIMULATOR.md:129 | From the first request of a run with a new tag to the final check, with any number of producers and other clients: once producers and backend were confirmed stopped and the transaction ran, the final table is legal, holds all initial rows, no row of the run, and otherwise only what other clients requested |
| WholeRun.ReopenedIsOthers | docs/SIMULATOR.md:129 | That no request of the run follows the restart, from the producers' stop and the end of their connections |
| Refresh.ReactKeepsInv | frontend/src/App.vue:25-54 | Every callback keeps the invariant; in particular an invalidation no fetch has followed yet is held by the timer or by the pending flag |
| Refresh.SessionKeepsInv | frontend/src/App.vue:25-105 | That invariant holds after every sequence of callbacks |
| Refresh.QuietBoardIsCurrent | frontend/src/App.vue:25-77 | At most one timer and one fetch; with none live, every invalidation was followed by a later fetch whose data is shown, unless an error is |
| Refresh.ErrorExactly | frontend/src/App.vue:33-38 | An error is shown if and only if the last fetch that ended has failed |
| Refresh.FetchShows | frontend/src/App.vue:33-38 | A fetch that succeeds clears the error and shows what it fetched; one that fails shows an error and leaves the data |
| Refresh.CausesAreHeeded | frontend/src/App.vue:25-54 | Mounting, the poll, the button, the timer and each invalidation start a fetch, or are pending behind the one in flight, or wait for the timer |
| Refresh.FetchesAreCaused | frontend/src/App.vue:25-54 | There are never more fetches, started or still to be started, than mounts, polls, clicks and invalidations |
| Refresh.InvalidationAdvances | frontend/src/App.vue:25-54 | An unserved invalidation keeps something under way, no callback sets it back, and fetch end and timer advance it |
| Refresh.NoInvalidationIsLost | frontend/src/App.vue:68-77 | While mounted, every invalidation is followed by a fetch that starts after it, once the fetch in flight has ended and a timer has fired after that |
| Refresh.NothingStartsAfterUnmount | frontend/src/App.vue:96-105 | After unmounting no fetch and no timer starts |
| Refresh.App.Displayed | frontend/src/App.vue:25-54 | Between callbacks at most one timer and one fetch are live, and what a quiet component shows is newer than the last invalidation unless it shows an error |
| Refresh.App.FetchReturned | frontend/src/App.vue:33-45 | A success shows its data without an error, a failure an error over the old data; a pending refresh is scheduled unless stopped, and the component's invariant is kept |
| Refresh.App.OnMessage | frontend/src/App.vue:68-77 | An invalidation schedules a refresh, any other message changes nothing; the invariant is kept |
| Refresh.App.OnTimer | frontend/src/App.vue:50-53 | The timer clears its handle and refreshes; the invariant is kept |
| Refresh.App.OnPollOrClick | frontend/src/App.vue:93 | Polling refreshes; the invariant is kept |
| Refresh.App.OnMounted | frontend/src/App.vue:90-94 | Mounting refreshes; the invariant is kept |
| Refresh.App.OnBeforeUnmount | frontend/src/App.vue:96-105 | Unmounting stops and clears the timer; the invariant is kept |

## Left out

- EventStores.EventStore.IngestRefund: other callers' `last_seen_at` updates during its waits are not parameters; the step system has them.
- Transport.PostEventWithRetry: with unlimited retries the answers are a finite prefix, after which the loop is reported as still waiting.
- Runtimes.Runtime.Delivered: the runtime holds the ledger by value; entry objects shared between ledger and queue are modelled in `Ledgers.TrafficGenerator`.
- Delivery.HappensIsLinked: permanent errors from anything but the backend are not modelled.
- Harness.Finalizer.Finalize: command outcomes are inputs; printed messages and captured output are not modelled, and of what changes store rows only ingestion is.
- Monotonicity of `last_seen_at`: it is last-writer-wins, and the UPDATE skipped for an unchanged value is modelled as performed.
- Heartbeats and their lock on the store row, health endpoints, `is_store_online`, seeding and the connection manager.
- Foreign-key share locks, which are compatible with the store row's update.
- JSONB and timestamp representation and 64-bit column limits: integers are unbounded and metadata maps strings to strings.
- Floating point in the backoff: delays are reals, so the overflow of very long retry runs is not modelled.
- Random seeds, distributions and clocks: every draw and every time is an input.
- Crashes of the simulator process, whose queue and ledger are process-local by design.
- The harness's run phase (metrics, log search, polling) and its snapshot query.
- WebSocket reconnection, number formatting and the template of the dashboard.
- HTTP, ORM and database-driver plumbing: only the map from verdict to status code is modelled.
