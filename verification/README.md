# Order ingestion: a verified model

The service takes order events from a Redis stream, processes each in one PostgreSQL transaction, and
acknowledges it after the commit. A producer generates load for it. This project models that pipeline
in four layers and proves them together.

**1. The transactional processor.** `Domain`, `Schema` and `Processor` hold the transition rules, the five
tables with their constraints, and what one event does to them (`Step`). `OrderRepository.dfy` has the
repository as a class over five table fields: the statements, the replay loop that asks for the least
pending row again each time, and the transaction. Each method is proved against the functions.
`Invariants` and `Steps` state and keep what holds in every reachable state; `Runs` says what is final and
why redelivery is harmless; `Convergence` says exactly when the final status of an order does not depend on
the delivery order; `Guarantees` reads the consequences off the invariant.

**2. Concurrency.** `Transactions` breaks `Step` into the statements of one transaction, and `Concurrency`
interleaves transactions: the advisory lock on an arbitrary hash of the order id, the unique insert
that waits for another transaction with the same event id, READ COMMITTED reads, commit and abort. Every
interleaving is serial, no state is deadlocked, no statement violates a constraint. `Interleaving` says exactly
who waits for whom, and that independent transactions really overlap.

**3. Delivery.** `Delivery` adds the stream, the group cursor, the pending-entries list, and any number of
workers and reclaimers that hold entries, also the same one, with every adversarial event as a move: lost
replies, crashes, rollbacks, commits whose report is lost, acknowledgements that are skipped or fail.
`Worker` has the pool and the reclaimer as they handle a batch, `ClaimLoop` the paging loop over XAUTOCLAIM,
`Metrics` the counters and the ledger that ties them to the tables. `Refinement` shows that a batch, as the workers
handle it, is a sequence of protocol moves, and `Draining` that every reachable state can be drained unless an
invalid event is in the stream.

**4. The load generator.** `Workload` gives the load as a function of the configuration, `Producer` is the
generator with its counters and the batching publisher, `LoadRun` the whole run and when it succeeds,
`Numbering` the sequence numbers and times, and `Labels` proves that the producer's labels say how the
processor classifies each event. `GeneratedOrders` says which generated orders converge, and `EndToEnd` follows
the load through the whole pipeline.

Three things that one would expect of the service hold only under a condition; the exact one is proved for each.

- Convergence: an order that was created ends at a status that depends only on the delivered events if and
  only if no CANCELLED event is among them and, when both PAID and SHIPPED events are, some PAID event has a
  smaller (timestamp, event id) than every SHIPPED one (`Convergence.ConvergesExactlyWhen`). Otherwise two
  deliveries of the same events end differently.
- `validate` accepts duplicate ratios above one half, but at most one duplicate is sent per unique event, so
  a run without publish failures succeeds if and only if the duplicates do not outnumber the unique events
  (`LoadRun.PublishGenerated`, `LoadRun.LoadCounts`, `LoadRun.AcceptedButUnreachable`).
- The seconds of the generated timestamps are 64-bit durations in nanoseconds, which wrap around after 292 years
  and then every 584 years; each wrap-around starts an era and sets the clock back. Two events of one generated
  order are dated in lifecycle order if and only if their indices lie in one era. So an order of the load
  converges if and only if it is not cancelled and is not paid in one era and shipped in the next
  (`Numbering.OrdersAreDatedInOrder`, `GeneratedOrders.LoadedOrdersConverge`). An accepted configuration with an
  order that does not converge is `GeneratedOrders.LongLoadDiverges`; up to 9223372037 unique events there is none
  (`GeneratedOrders.ShortLoadsConverge`).

Conventions. A status is a string in the service; here it is a datatype with a case for strings that name no
lifecycle status (`Domain.StatusTexts`).
Reasons are an enumeration, one case per message. Timestamps are integers as the database stores them, 0 for
the zero time. Event ids are ordered by code point, as with the C collation; the proofs use only that the
order is total and strict. Ratios are reals. The random source is an arbitrary function of the draw number.

## Model

| member | source | states |
|---|---|---|
| Domain.StatusTexts | internal/domain/status.go:3-20 | Strings and statuses correspond one to one; a string is a known status exactly when it is one of the four names |
| Domain.TransitionTable | internal/domain/state_machine.go:19-56 | A step is applied exactly when it is one of the five lifecycle edges, waits exactly when it lies ahead but is not an edge yet, a terminal status only answers with duplicate or invalid, and unknown statuses are invalid |
| Domain.ReasonsAreTrue | internal/domain/state_machine.go:19-56 | Every reason is true: an applied step is named, an early event's reason names exactly the statuses between the current one and its own, the other reasons say what is wrong |
| Domain.ValidationAccepts | internal/repository/order_repository.go:215-242 | An event is valid exactly when both ids, the time, a known status and no or an object payload are there; nothing changes but a missing payload, which becomes the empty object |
| Domain.ValidationNamesTheFault | internal/repository/order_repository.go:215-242 | A refusal names the first of the five faults, so a single fault is named |
| Domain.ValidationNormalizes | internal/repository/order_repository.go:215-242 | A validated event validates to itself, and keeps id, order, status and time; so a replayed event is as valid as a new one |
| Domain.KeyOrder | internal/repository/order_repository.go:566 | Rows are ordered by time, and by event id when the times agree; two different keys are ordered one way only, so the least pending row is unique |
| Domain.KeyLessIsTransitive | internal/repository/order_repository.go:566 | The replay order is transitive |
| Domain.TextOrder | internal/repository/order_repository.go:566 | Event ids are ordered by their first difference, and a proper prefix is less |
| Processor.LeastExists | internal/repository/order_repository.go:553-591 | A nonempty set of pending rows has a least row |
| Processor.LeastIsUnique | internal/repository/order_repository.go:553-591 | The row chosen by ORDER BY timestamp, event id LIMIT 1 is determined |
| Processor.QueueListsRows | internal/repository/order_repository.go:553-591 | The replay queue holds exactly the order's pending rows |
| Processor.QueueAscends | internal/repository/order_repository.go:553-591 | The replay queue strictly ascends by (timestamp, event id) |
| Processor.QueueIsTheSortedList | internal/repository/order_repository.go:464-551 | Any ascending list of the rows is the queue that repeated least-row queries produce |
| Processor.RunConcat | internal/repository/order_repository.go:67-213 | Processing two batches one after the other is processing their concatenation |
| Invariants.RouteKeepsConsistent | internal/repository/order_repository.go:127-202 | Acting on a classification keeps rows, outcomes, history paths and order rows in agreement |
| Steps.StepKeepsInv | internal/repository/order_repository.go:67-213 | Every transaction keeps the whole invariant: one row per outcome, lawful histories, no order waits needlessly |
| Steps.RunKeepsInv | internal/repository/order_repository.go:67-213 | The invariant holds in every state a serial run reaches |
| Steps.ReplayIsAllOrNothing | internal/repository/order_repository.go:464-551 | A replay changes nothing at all or settles every pending event of the order, and applies at most two |
| Steps.SettledReplayConsumesAll | internal/repository/order_repository.go:481-541 | Once an order is PAID or later a replay consumes its whole queue |
| Steps.StuckQueueWaits | internal/repository/order_repository.go:540-541 | A replay that stops leaves a head that really has to wait |
| Steps.OtherOrdersAreUntouched | docs/adr/003-concurrency-control.md:26-29 | A transaction changes no row of another order in any of the five tables |
| Steps.StepAddsKey | internal/repository/order_repository.go:256-286 | A transaction adds its own event id to the processed ids and no other |
| Repository.FirstStmtsRoute | migrations/001_init.sql:3-77 | No statement for a new event violates a constraint, and together they do what the classification asks |
| Repository.ReplayStmtsRoute | internal/repository/order_repository.go:483-538 | The same for the statements that replay a pending event |
| Repository.QueueTail | internal/repository/order_repository.go:593-608 | Deleting the least row leaves exactly the rest of the queue for the next query |
| Repository.ReplayRound | internal/repository/order_repository.go:472-549 | One round of the loop routes the head and keeps the tables consistent |
| Repository.OrderRepository.constructor | migrations/001_init.sql:3-77 | Empty tables satisfy the invariant |
| Repository.OrderRepository.Command | internal/repository/order_repository.go:76-102 | A command reaches the database and fails exactly when its turn to fail has come |
| Repository.OrderRepository.InsertProcessedEvent | internal/repository/order_repository.go:256-286 | Inserts the event id unless it is there, and says which, or fails |
| Repository.OrderRepository.LoadCurrentStatus | internal/repository/order_repository.go:288-313 | The order's status, or none |
| Repository.OrderRepository.ApplyEvent | internal/repository/order_repository.go:315-379 | Saves the order's status and appends the history row, both allowed by the schema |
| Repository.OrderRepository.InsertPendingEvent | internal/repository/order_repository.go:381-409 | Stores a deferred event |
| Repository.OrderRepository.InsertDeadLetterEvent | internal/repository/order_repository.go:411-437 | Stores a rejected event |
| Repository.OrderRepository.SetOutcome | internal/repository/order_repository.go:439-462 | Rewrites the outcome of a processed row |
| Repository.OrderRepository.DeletePendingEvent | internal/repository/order_repository.go:593-608 | Removes a pending row that is there |
| Repository.OrderRepository.RouteEvent | internal/repository/order_repository.go:127-202 | The four branches equal one function of tables, event and current status |
| Repository.OrderRepository.LoadNextPending | internal/repository/order_repository.go:553-591 | The head of the sorted queue, which is the least pending row |
| Repository.OrderRepository.ReplayEvent | internal/repository/order_repository.go:481-538 | Routes one deferred event and removes its pending row |
| Repository.OrderRepository.ReplayNext | internal/repository/order_repository.go:472-541 | One round: replays the least deferred event, or finds none or one that has to wait |
| Repository.OrderRepository.ReplayPending | internal/repository/order_repository.go:464-551 | The re-querying loop ends, and equals one left-to-right pass over the rows sorted once, stopped at the first that must wait |
| Repository.OrderRepository.RunTx | internal/repository/order_repository.go:76-210 | Between validation and commit tables and answer become those of `Step`, or a command fails |
| Repository.OrderRepository.ProcessNewEvent | internal/repository/order_repository.go:114-210 | Tables and answer for a new event are those of `Step` |
| Repository.OrderRepository.ProcessEventTx | internal/repository/order_repository.go:67-213 | Commits `Step` with its answer, or changes nothing, whichever of its commands fails; invalid events are refused; keeps the invariant |
| Guarantees.NewAnswerIsTrue | internal/repository/order_repository.go:114-210 | Each field of the answer to a new event is true of the tables it leaves: applied, pending, deadLetter and duplicate say which row is there, or none, and replayedPending counts the further history rows |
| Guarantees.NewRowsCarryTheEvent | internal/repository/order_repository.go:164-202 | A pending row or dead letter carries the event, payload included, with the reason of the answer |
| Guarantees.RepeatedAnswerIsTrue | internal/repository/order_repository.go:99-112 | A repeated event id is answered as a duplicate event and as nothing else, and no row changes |
| Guarantees.WaitingReasonsFit | internal/domain/state_machine.go:46-51 | In every reachable state the reason of a pending row names the step that leads to its status, and no later one |
| Runs.RunIsFaithful | docs/adr/002-idempotency.md:55-59 | The tables hold exactly the first valid event delivered under each id, unaltered |
| Runs.RedeliveryIsHarmless | internal/repository/order_repository.go:99-112 | Dropping every redelivery from a run, even with another order, status or payload, changes no table |
| Runs.FirstDeliveriesAreAccepted | internal/repository/order_repository.go:256-286 | The first deliveries carry distinct ids and are what the tables record |
| Runs.AcceptedIsFirstDelivery | internal/repository/order_repository.go:256-286 | Every accepted id has its first delivery in the list |
| Runs.OutcomeIsFinal | internal/repository/order_repository.go:439-462 | Only the outcome OUT_OF_ORDER can still change |
| Runs.RunKeepsOutcome | internal/repository/order_repository.go:439-462 | A settled outcome survives every run |
| Runs.TerminalEventSettles | internal/repository/order_repository.go:141-149 | An applied SHIPPED or CANCELLED event leaves the order there, whatever it replays |
| Runs.TerminalForever | internal/domain/state_machine.go:36-55 | SHIPPED and CANCELLED never change again in any run |
| Convergence.PathIsShort | internal/domain/state_machine.go:36-55 | A lawful history has at most three steps |
| Convergence.StatusIsFinalStatus | docs/adr/004-out-of-order-events.md:15-60 | In a state of a convergent order the status is the one its events determine |
| Convergence.RunConverges | internal/repository/order_repository.go:119-210 | The final status of a convergent order depends only on the set of delivered events |
| Convergence.CancellationDiverges | internal/domain/state_machine.go:42-45 | With CREATED and CANCELLED events two delivery orders end differently |
| Convergence.ShipmentDiverges | internal/repository/order_repository.go:540-541 | With no PAID event before all SHIPPED ones two delivery orders end differently |
| Convergence.ConvergesExactlyWhen | internal/repository/order_repository.go:464-551 | All deliveries of a set of events agree if and only if the set meets the stated guard |
| Guarantees.OneFate | internal/repository/order_repository.go:127-202 | Each processed event has exactly one row that matches its outcome (none for a repeated status), no row is left RECEIVED, no row speaks of an unprocessed event |
| Guarantees.PendingHeadWaits | internal/repository/order_repository.go:540-541 | The least pending row of an order is out of order for it, so a settled order has none |
| Guarantees.HistoryTellsTheOrder | internal/repository/order_repository.go:315-379 | An order's history starts at CREATED, has at most three allowed steps, ends at its status, and is empty exactly when there is no order |
| Guarantees.CommittedStatesAreSound | internal/repository/order_repository.go:67-213 | All of this holds in every state that concurrent transactions commit |
| Schema.AcceptedKeepsSchema | migrations/001_init.sql:3-77 | Accepted statements keep the constraints: known statuses, one history row per event id, and an order for each |
| Schema.AcceptedHitsOneRow | migrations/001_init.sql:3-77 | An accepted insert overwrites no row, an update or delete finds its row |
| Guarantees.CommittedStatesKeepSchema | migrations/001_init.sql:3-77 | In every state that concurrent transactions commit the constraints hold and stored payloads are JSON objects |
| Transactions.WholeProgramIsStep | internal/repository/order_repository.go:67-213 | The statements of one transaction, run alone, are accepted by the schema and do what `Step` does |
| Transactions.WholeProgramIsLocal | docs/adr/003-concurrency-control.md:26-29 | A transaction's statements and answer depend only on its order's rows and its event id |
| Transactions.StatementFollowsProgram | internal/repository/order_repository.go:315-379 | Executing a statement leaves the rest of the program as it was |
| Transactions.ReplayFollowsProgram | internal/repository/order_repository.go:472-549 | Querying the pending table again leaves the rest of the program as it was |
| Concurrency.CommitPerformsStep | internal/repository/order_repository.go:84-112 | A commit makes of the committed tables what `Step` makes of them, and answers as `Step` |
| Concurrency.OthersStayOnTrack | docs/adr/003-concurrency-control.md:26-32 | A commit is invisible to a transaction in progress for another order |
| Concurrency.EveryInterleavingIsSerial | internal/repository/order_repository.go:76-112 | Under any hash and any interleaving the committed tables and all answers are those of the serial run in commit order |
| Concurrency.SomeTransactionCanProceed | internal/repository/order_repository.go:84-102 | While a transaction is in progress, some transaction can take a step |
| Concurrency.NextStatementIsAccepted | migrations/001_init.sql:3-77 | In every reachable concurrent state the next statement of a transaction, the insert of its event id included, violates no constraint |
| Concurrency.NoRowHasTwoWriters | internal/repository/order_repository.go:315-437 | Two transactions past their insert never write the same keyed row |
| Interleaving.LockWaitsForSameHash | internal/repository/order_repository.go:84-97 | A transaction waits for its lock exactly while another one holds a lock with the same hash |
| Interleaving.InsertWaitsForSameEvent | internal/repository/order_repository.go:256-286 | Its insert waits exactly while another one in progress has inserted the same event id, and does nothing if the id is committed |
| Interleaving.HoldersDiffer | docs/adr/003-concurrency-control.md:26-29 | No two transactions hold locks of one hash, or have both inserted one event id |
| Interleaving.IndependentTransactionsOverlap | docs/adr/003-concurrency-control.md:26-29 | Any number of transactions with different hashes and event ids can be past their insert at the same time |
| Delivery.EntriesAreHandedOut | internal/worker/pool.go:174-176 | A delivery or claim gives exactly the consumer that asks, and no other, a task for exactly that entry, which is pending then |
| Delivery.ValidEventsCanStart | internal/worker/pool.go:180-187 | A task that holds a valid event can start its transaction, whatever else is in progress |
| Delivery.TransactionsMoveOn | internal/worker/pool.go:180-187 | A started transaction takes the steps that the cluster allows |
| Delivery.CommitsLeaveTheEntryPending | internal/worker/pool.go:185-207 | A commit does what `Step` does; if its report is lost the entry stays pending, otherwise the acknowledgement is due |
| Delivery.AckSettlesTheEntry | internal/queue/redis_stream.go:206-229 | An acknowledgement takes exactly its entry off the pending list |
| Delivery.DropForgets | internal/worker/pool.go:187-198 | A task that fails or crashes leaves tables, log and entry as they were |
| Delivery.MoveKeepsInv | internal/worker/pool.go:139-232 | Every protocol move, adversarial or not, keeps the accounts of entries, tasks and acknowledgements |
| Delivery.NothingIsLost | internal/worker/pool.go:185-232 | Each entry is unread, pending or acknowledged, exactly one of them, and an acknowledged entry's event id is committed |
| Delivery.DrainedIsExactlyOnce | internal/worker/reclaimer.go:109-163 | When nothing is unread or pending, the tables are those of processing each published event id exactly once |
| Delivery.DrainedConverges | internal/worker/reclaimer.go:109-163 | A drained system shows the status that the published events of a convergent order determine |
| Draining.EveryStateCanDrain | internal/worker/reclaimer.go:109-163 | From every reachable state with valid events some moves without a publication lead to a drained state |
| Draining.DrainsExactlyWhenValid | internal/worker/reclaimer.go:109-163 | A reachable state can be drained if and only if its stream holds only valid events |
| Draining.StreamCanBeProcessed | internal/worker/pool.go:139-232 | Any sequence of valid events can be published and drained, and then each of them is processed |
| Worker.SkippedIsBounded | internal/worker/pool.go:258-265 | Among the first n successes exactly those after the first `after` and up to `count` of them lose their acknowledgement |
| Worker.AckFailureSimulator.ShouldSkipAck | internal/worker/pool.go:258-265 | Counts one success and says whether it lies in the window |
| Worker.ConsumerGroup.Ack | internal/queue/redis_stream.go:206-229 | An acknowledgement removes a pending entry once, also when its reply is lost |
| Worker.Pool.constructor | internal/worker/pool.go:245-256 | The simulator exists exactly when both values are positive, and has them |
| Worker.Pool.HandleMessage | internal/worker/pool.go:180-243 | Failure moves only the failure counter; success processes, records, and acknowledges unless skipped; works without a collector, too |
| Worker.Pool.Confirm | internal/worker/pool.go:206-232 | What follows a commit |
| Worker.Pool.HandleBatch | internal/worker/pool.go:174-176 | A batch is handled message by message, whatever fails |
| Worker.Reclaimer.HandleMessage | internal/worker/reclaimer.go:137-185 | As the pool, with a recovery recorded and no skipping |
| Worker.Reclaimer.Confirm | internal/worker/reclaimer.go:156-174 | What follows a commit |
| Worker.Reclaimer.HandleAll | internal/worker/reclaimer.go:131-134 | The claimed messages are handled one by one, whatever fails |
| Worker.Reclaimer.Reclaim | internal/worker/reclaimer.go:109-135 | Claims idle entries and handles exactly their messages; a failed claim changes nothing |
| Worker.BatchIsARun | internal/worker/pool.go:174-207 | A batch does to the tables what serial processing of its committed events does |
| Worker.BatchIsSafe | internal/worker/pool.go:204-232 | No batch acknowledges an uncommitted event or loses an entry |
| Worker.BatchIsCounted | internal/worker/pool.go:185-216 | Each message is counted once as processed or failed, and simulated failures are exactly the skipped positions |
| Worker.BatchIsRecorded | internal/worker/pool.go:201 | After a batch all class counters and the replays are those of recording the processor's own answers to the committed messages |
| Worker.BatchKeepsLedger | internal/worker/pool.go:185-207 | A collector that balances against the tables still does after any batch |
| Worker.FirstBatchBalances | internal/worker/pool.go:185-207 | A batch that starts with empty tables and no counts leaves counters that balance against its tables |
| Worker.BatchAcknowledges | internal/worker/pool.go:204-232 | A batch acknowledges exactly the entries whose message succeeded and whose acknowledgement was not skipped and arrived |
| Metrics.RecordingOrderIsIrrelevant | internal/monitoring/metrics.go:77-102 | Recording the same answers in any order gives the same counters |
| Metrics.Collector.RecordResult | internal/monitoring/metrics.go:77-102 | The branches over the classification equal one function on counters |
| Metrics.Collector.RecordFailure | internal/monitoring/metrics.go:104-107 | Moves the failure counter and no other |
| Metrics.Collector.RecordSimulatedFailure | internal/monitoring/metrics.go:109-112 | Moves the simulated-failure counter and no other |
| Metrics.Collector.RecordRecovered | internal/monitoring/metrics.go:114-117 | Moves the recovery counter and no other |
| Metrics.LedgerBalances | internal/monitoring/metrics.go:77-102 | After every run: the classes add up, first-time events equal the processed rows, applied plus replayed equal the history, deferred and dead-lettered events balance the pending and dead-letter rows |
| Metrics.ConcurrentLedgerBalances | internal/monitoring/metrics.go:77-102 | The ledger balances after every interleaving, in whatever order the workers record the answers of their commits |
| Refinement.LoneTransactionCompletes | internal/repository/order_repository.go:76-212 | A transaction without competitors gets both locks, executes all its statements, and is ready to commit |
| Refinement.MessageIsMoves | internal/worker/pool.go:180-243 | Handling one message is a sequence of protocol moves with the same tables, pending list and acknowledgements |
| Refinement.BatchIsMoves | internal/worker/pool.go:169-176 | Handling a batch in a reachable state leads to a reachable state, so everything proved of the protocol holds there |
| ClaimLoop.Group.XAutoClaim | internal/queue/redis_stream.go:169-179 | The broker's scan: at most `count` eligible entries in order, at most ten entries looked at per requested one, and a cursor that moves on past at least one entry |
| ClaimLoop.Group.ClaimPending | internal/queue/redis_stream.go:149-204 | Ends; at most `count` distinct eligible entries in ascending order; a short result without a nil reply claimed everything eligible; fails only for a bad count, a broken reply or a malformed entry |
| Workload.RatioCountInRange | cmd/producer/generator.go:385-387 | A ratio of a total lies between zero and the total |
| Workload.RatioCountIsTheShare | cmd/producer/generator.go:385-387 | The count is the whole part of the share |
| Workload.TargetsMeetTheRatios | cmd/producer/generator.go:130-133 | Each target is the whole part of its share, and unique events and duplicates make up the total |
| Workload.ConfigIsRefusedForItsFault | cmd/producer/generator.go:67-120 | A configuration is accepted exactly when it has none of the eight faults, and otherwise refused for the first |
| Workload.PaddedIsDecimal | cmd/producer/generator.go:350-354 | Nine places, more only for numbers that need them, and the digits read as the number |
| Workload.SignedIsDecimal | cmd/producer/generator.go:337-341 | The seed is written with a sign only when it is negative, and reads as the seed |
| Workload.PaddedIsInjective | cmd/producer/generator.go:350-354 | Zero-padded numbers are as distinct as the numbers, also beyond nine digits |
| Workload.IdsAreInjective | cmd/producer/generator.go:334-354 | Event ids and order ids are distinct for distinct seeds or numbers |
| Workload.PayloadIsInjective | cmd/producer/generator.go:355-360 | The payload tells seed, sequence number and status |
| Workload.WrappedIsCongruent | cmd/producer/generator.go:374-383 | Wrapping gives the 64-bit duration that differs by whole clock ranges |
| Workload.EpochIsNewYear | cmd/producer/generator.go:16 | The clock of seed 0 starts with the year 2025 |
| Workload.SeedShiftsTheClock | cmd/producer/generator.go:138 | Each further seed starts one second later, exactly within 292 years |
| Workload.TimeByEra | cmd/producer/generator.go:374-383 | The time of an index is that many seconds after the base time, less one clock range per wrap-around |
| Workload.TimeIsLinear | cmd/producer/generator.go:374-383 | Times grow one second per index exactly up to 292 years of simulated seconds |
| Workload.DatedInOrder | cmd/producer/generator.go:374-383 | Neighbouring indices are dated in order if and only if no wrap-around lies between them |
| Workload.TimeIsPositive | cmd/producer/generator.go:374-383 | No generated timestamp is the zero time that validation refuses |
| Workload.OutOfOrderSize | cmd/producer/generator.go:389-393 | The size that validation uses is what the out-of-order scenarios send |
| Workload.InvalidSize | cmd/producer/generator.go:109-110 | An invalid scenario sends four events |
| Workload.NormalSize | cmd/producer/generator.go:264-297 | The normal scenarios send exactly what is left |
| Workload.PlanParts | cmd/producer/generator.go:147-157 | The plan consists of the special scenarios and normal ones for what is left |
| Workload.SpecialsComeFirst | cmd/producer/generator.go:147-157 | First the out-of-order scenarios, alternating, then the invalid ones, then the normal ones |
| Workload.LifecyclesAreThePaths | cmd/producer/generator.go:268-274 | The normal lifecycles are all lawful paths, each once |
| Workload.OnlyTheLastIsCut | cmd/producer/generator.go:276-294 | The k-th draw decides the k-th lifecycle, and none but the last is cut short |
| Workload.PlanSize | cmd/producer/generator.go:122-168 | An accepted configuration sends exactly total minus duplicates unique events |
| Workload.WithDuplicatesSize | cmd/producer/generator.go:299-332 | The duplicates sent are the wanted ones or one per unique event, whichever is less |
| Workload.DuplicatesFollow | cmd/producer/generator.go:316-332 | The first events are each followed at once by their duplicate, the others stand alone |
| Producer.BatchPublisher.Publish | internal/queue/redis_stream.go:77-100 | A publish call appends one event or fails, and a call that fails may have appended it |
| Producer.BatchPublisher.Flush | cmd/producer/generator.go:405-428 | Publishes the batch in order, or a prefix of it up to the first failure; succeeds exactly when each of its calls does |
| Producer.BatchPublisher.Emit | cmd/producer/generator.go:430-436 | Publishes when the batch is full and not before; never loses or reorders an event; fails only if a publish call failed |
| Producer.EventGenerator.CountUnique | cmd/producer/generator.go:307-314 | The summary counts the event and its label |
| Producer.EventGenerator.EmitNext | cmd/producer/generator.go:303-305 | Emits one event of the goal, or stops with a prefix of the goal because a publish call failed |
| Producer.EventGenerator.EmitUnique | cmd/producer/generator.go:299-332 | One unique event, followed at once by its duplicate while some are wanted; the summary keeps up |
| Producer.EventGenerator.NextOrderId | cmd/producer/generator.go:334-342 | Order numbers are consecutive and counted |
| Producer.EventGenerator.MakeEvent | cmd/producer/generator.go:344-372 | Event numbers are consecutive |
| Producer.EventGenerator.ReserveTimes | cmd/producer/generator.go:374-383 | Consecutive unused seconds |
| Producer.EventGenerator.SendPaidBeforeCreated | cmd/producer/generator.go:176-197 | Creates CREATED and PAID in time order, sends PAID first, labelled out of order |
| Producer.EventGenerator.SendShippedBeforePaid | cmd/producer/generator.go:199-224 | Creates three events in time order, sends SHIPPED first, labelled out of order |
| Producer.EventGenerator.SendInOrder | cmd/producer/generator.go:235-258 | Sends a lifecycle in time order; a cancellation after shipment is labelled invalid |
| Producer.EventGenerator.GenerateOutOfOrder | cmd/producer/generator.go:170-228 | Sends exactly the out-of-order part of the plan |
| Producer.EventGenerator.GenerateInvalid | cmd/producer/generator.go:230-262 | Sends exactly the invalid part of the plan |
| Producer.EventGenerator.DrawLifecycle | cmd/producer/generator.go:278-281 | Picks a lifecycle by one random draw and cuts it to what is left |
| Producer.EventGenerator.SendLifecycle | cmd/producer/generator.go:277-293 | Sends the next normal scenario of the plan |
| Producer.EventGenerator.GenerateNormal | cmd/producer/generator.go:264-297 | Sends randomly picked lifecycles, the last one cut, until the count is used up |
| Producer.EventGenerator.GenerateAll | cmd/producer/generator.go:147-157 | The three parts make up the whole plan |
| LoadRun.LoadCounts | cmd/producer/generator.go:122-168 | Labels, unique events and orders meet their targets, and the total is reached if and only if the duplicates do not outnumber the unique events |
| LoadRun.SummaryMeetsTheRatios | cmd/producer/generator.go:122-168 | In the summary of a complete run each count is the whole part of its share of the total |
| LoadRun.AcceptedButUnreachable | cmd/producer/generator.go:101-105 | A configuration that validation accepts and no run can complete |
| LoadRun.Generate | cmd/producer/generator.go:122-168 | Refuses a configuration or runs it |
| LoadRun.GenerateLoad | cmd/producer/generator.go:130-167 | Emits exactly the load with a truthful summary, or stops with a published prefix because a publish call failed, or reports a short total after everything was sent, exactly when the duplicates outnumber the unique events |
| LoadRun.PublishGenerated | cmd/producer/generator.go:395-446 | On success the stream gets exactly the generated sequence in order; always a prefix; it succeeds if and only if the duplicates do not outnumber the unique events and every publish call of the load is answered |
| Numbering.EveryNumberOnce | cmd/producer/generator.go:344-383 | Each number n from 1 to the unique count is used by exactly one event, which has the time of index n - 1; that is n - 1 seconds after the base time exactly up to 292 years |
| Numbering.SlotsArePermuted | cmd/producer/generator.go:170-228 | Sending early events first only permutes the numbering |
| Numbering.OrdersAreDatedInOrder | cmd/producer/generator.go:374-383 | Two events of one generated order are steps of one lifecycle; the earlier step is dated before the later one if and only if their indices lie in one era |
| Numbering.PlanIsStaged | cmd/producer/generator.go:170-297 | Every generated lifecycle starts with CREATED and reaches PAID only second and SHIPPED only third |
| GeneratedOrders.SameIdSameEvent | cmd/producer/generator.go:344-372 | Generated events with one id are one event |
| GeneratedOrders.StoryConverges | internal/repository/order_repository.go:464-551 | All deliveries of the delivered part of an order agree if and only if its payment key precedes its shipment key, unless it was not created or not both paid and shipped |
| GeneratedOrders.GeneratedOrdersConverge | cmd/producer/generator.go:170-297 | For any part of the load, in any order and any number of times: all deliveries agree if and only if the part has no CREATED, or no CANCELLED and not PAID and SHIPPED in different eras; then the status is the one its events determine |
| GeneratedOrders.LoadedOrdersConverge | cmd/producer/generator.go:170-297 | Of the whole load exactly the orders converge that are not cancelled and do not wrap around between payment and shipment |
| GeneratedOrders.ShortLoadsConverge | cmd/producer/generator.go:374-383 | Up to 292 years of simulated seconds exactly the orders without cancellation converge |
| GeneratedOrders.LongLoadDiverges | cmd/producer/generator.go:67-120 | A configuration that validation accepts, with an order that is not cancelled, is shipped before it is paid by its timestamps, and does not converge |
| EndToEnd.LoadIdsAreConsistent | cmd/producer/generator.go:299-332 | Entries of the load with one id are equal |
| EndToEnd.ProducedLoadSettles | internal/worker/reclaimer.go:109-163 | Once the load is drained, every order that converges shows the last status of its lifecycle |
| EndToEnd.ProducedLoadCanSettle | internal/worker/reclaimer.go:109-163 | The load of every accepted configuration can be published and drained, with every event processed and every order that converges arrived |
| Labels.PlainStep | internal/repository/order_repository.go:127-202 | An event that need not wait is answered by its class, and nothing else moves |
| Labels.DeferringStep | internal/repository/order_repository.go:164-182 | An early event waits and is the only one waiting |
| Labels.BlockedStep | internal/repository/order_repository.go:540-541 | CREATED does not release a waiting SHIPPED event |
| Labels.ReleasingStep | internal/repository/order_repository.go:483-503 | The missing event releases the waiting one in the same transaction |
| Labels.DuplicatesAreLabelled | cmd/producer/generator.go:320-329 | Duplicates that follow their source leave tables, labels and replays unchanged |
| Labels.PlanIsTold | cmd/producer/generator.go:170-297 | Every plan of such scenarios is labelled right and leaves nothing waiting |
| Labels.LabelsAgree | cmd/producer/generator.go:170-332 | For every accepted configuration the serial processor classifies each generated event as labelled, nothing waits in the end, and the replayed events are exactly the out-of-order ones |

## Left out

- Repository.OrderRepository.ProcessEventTx: a commit whose report is lost is not a fate of this method; it is the move CommitUnanswered of `Delivery`.
- Worker.Pool.HandleMessage: logging and the wait after a read error are not modelled.
- ClaimLoop.Group.ClaimPending: the pending-entries list and the idle times do not change from outside during one call, entries deleted from the stream do not occur, and consumer name and minimum idle time are taken as checked.
- Producer.BatchPublisher.Publish: the progress lines are not modelled.
- LoadRun.PublishGenerated: a negative batch size, which the flag parser refuses before, is excluded; on an error there is no summary, as in the service.
- Delivery.MoveKeepsInv: batches are over-approximated, any consumer may handle any delivered entry at any time and any number of consumers may hold one entry; entries whose event is invalid stay pending for ever, as in the service.
- Refinement.BatchIsMoves: the batch is handled while no other transaction is in progress; interleaved handling is covered by the moves themselves.
- Workload.RatioCountInRange: ratios are reals, so floating-point rounding of the product, NaN and infinities are not modelled.
- Serial row ids, created_at, updated_at and attempts columns, and indexes.
- JSON payload text, RFC 3339 timestamps and the codec between stream fields and events: payloads are opaque, encoding is taken as faithful.
- The length limit and wrap-around of counters: counts are unbounded naturals; only 64-bit durations wrap.
- Fairness and liveness: that a lock, a read or a claim is eventually granted.
- HTTP server, stats endpoint, configuration, logging, signals, container files.
