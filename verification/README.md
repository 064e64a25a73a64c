# TrackFlow backend: a verified model

TrackFlow's backend is a chain of database protocols. This project models their tables as state and each
transaction as a step, and proves what the steps keep over every run. Four parts are connected:

* **Inventory, outbox relay and audit.** Commands write movements, threshold checkpoints and outbox rows; a relay
  copies the outbox to a second database, and may crash between its two commits; an audit decides whether both agree.
* **KPI transformation.** Validation, two deduplications, four counters, and composition with an overflow rule.
* **Weekly publication.** Leases with fencing tokens, one business transaction for rows, pointer and release, and run
  history on a separate connection; leases expire, commits get lost, coordinators compete.
* **Durable tasks.** Execution claims with epochs, heartbeats, bounded retries, dead letters, reconciliation, and a
  dispatch outbox with relay tokens.

The main result joins the first three: if the audit of a week and the quality gate pass, the published KPIs are the
counts of the operational tables (`EndToEnd.KpisEqualOperations`). `SettledWeek.GateIsExact` says exactly when that
happens: when the week was relayed, its rows name their clients, no other service writes such events, and no counter
overflows. `PublishedWeek.ReportIsOperations` carries it through any interleaving of publications to what a reader sees.

## How it is built

| files | what they hold |
|---|---|
| `Basics`, `Identifiers`, `Vocabulary` | finite sums, text and UUID forms, the order of texts, tags, telemetry rows, ISO weeks |
| `InventoryTables`, `InventoryCommands` | the tables, and what each command does to them |
| `InventoryInvariants`, `InventorySteps`, `InventoryLedger`, `InventoryOrders`, `InventoryRuns`, `InventoryReplays` | what every run of commands keeps; idempotence; thresholds |
| `InventoryOutcomes`, `OrderOutcomes` | when each command succeeds, on rows and balances alone, and every column it writes |
| `InventoryService` | the service as methods over a session, proved against the commands |
| `TtlCache`, `InventoryRoutes` | the read caches and the endpoints that use and invalidate them |
| `OutboxRelay`, `ProducerRuns`, `RelayOrder` | the relay with crashes; runs over both databases; order and effect of each attempt |
| `OperationalCoverage`, `CoverageCompleteness`, `CoverageMeaning`, `AuditEvidence` | the audit; exactly when it is silent; what each diagnostic means; what the coordinator gets of it |
| `WeeklyPerformance`, `WeeklyTransform`, `Extraction`, `QualityGate` | the transformation as a specification and as loops; its inputs; the gate |
| `TransformMeaning`, `ExtractionMeaning`, `GateMeaning` | the same three stated on rows, tags, evidence and constants, for all inputs |
| `AuditedWeek`, `EndToEnd`, `SettledWeek`, `PublishedWeek` | the end-to-end theorems, from operational rows to the published report |
| `Lease`, `WeeklyUpsert` | the lease statements; validation, UPSERT and classification |
| `PublicationProtocol`, `PublicationSafety`, `PublicationSteps`, `Coordinator`, `WeeklyFlow` | competing publications as steps; their invariant; the columns each step leaves; one coordinator, and the weekly flow around it, as programs |
| `TaskQueue`, `TaskQueueSafety`, `TaskSteps`, `TaskExits`, `DispatchSafety`, `DispatchLimits`, `TaskWorker` | the queue as steps; its invariants; the columns each step leaves; how tasks end or get stuck; relay limits; worker, relay and reconciler as programs |

A run is a sequence of steps; a step that the databases refuse changes nothing. A query result is any sequence that
lists the qualifying rows, so no proof depends on the order in which a SELECT without ORDER BY returns them. Code that
changes state step by step is a method with the specification function it is proved against; the theorems are about
those functions. What each function itself must be is said once more without it: for every operation a lemma named
`...Exact`, or the method's own contract, gives the result for all inputs on columns, texts and literal constants.

Assumptions, all of the databases: primary keys and unique constraints hold, a transaction is atomic, a row lock lasts
to the end of its transaction, a serial key is never given twice, and the database clock never goes back. UUIDs drawn
by `uuid4()` are arguments of the steps; where a result needs them to be new it says so. "Version 4" is the predicate
of section 5.4 of RFC 9562. Tags are JSON values with structural equality. Rows of the four event types under the
service name `api` come from the relay only.

Where the obvious stronger statement is false, the code is kept and the exact condition is proved:

* An order that lacks evidence is refused and does not block a publication; one that its evidence contradicts does
  (`QualityGate.GateIffNoContradiction`, both directions). The end-to-end theorem takes the acceptance of orders from
  the audit and the dispatch evidence.
* A retried order creation is a conflict once dispatches were appended (`InventoryReplays.OrderIdempotent`, both directions).
* An entry on a SKU without a client has no event, so its week fails the audit (`CoverageCompleteness.AuditIsExact`,
  both directions).
* Calls without faults empty the outbox if and only if no pending row conflicts (`OutboxRelay.DrainsIffNoConflict`); a
  conflicting row at its head blocks everything behind it (`OutboxRelay.ConflictBlocks`).
* A coordinator can leave its business transaction open, with the lock of its week: if and only if its mark is refused
  or fails after the lease was verified (`Coordinator.Coordinator.PublishWeeklyBusinessReport`). Its caller ends it.
* A dead letter can exist for a live task, exactly when the worker that wrote it was fenced
  (`TaskExits.LetterOfALiveTask`).
* A third preflight claim that expires stays claimed, exactly until a repair that the run's history decides or its own
  holder ends it, and never starts Prefect (`TaskExits.ThirdClaimIsStuck`).
* Relays with different attempt limits can disagree with the task table, exactly when one gives up a row that another
  has published (`DispatchLimits.AgreementIsExact`), and every two different limits can
  (`DispatchLimits.TwoLimitsDisagree`); with one limit they never do (`DispatchSafety.PublishedAgree`).
* The answer of a call whose lease verification failed says that no commit was attempted, while the record of its run
  says that it is uncertain (`Coordinator.Coordinator.PublishWeeklyBusinessReport`, as the code has it).
* Leases can be left uncertain only by a clock that goes back (`Lease.ClockGoingBackIsUncertain`).

## Model

| member | source | states |
|---|---|---|
| `EndToEnd.KpisEqualOperations` | pipelines/weekly_performance.py:631-741 | If the audit of a week and the quality gate pass, there is exactly one aggregate for each warehouse and client that did anything in the week, and its four counters are the ones counted directly in the operational tables: entered units, orders, threshold-crossing exits, counts with expected other than observed. |
| `EndToEnd.AllCounted` | pipelines/weekly_performance.py:370-513 | Behind a clear gate no event of the week is refused, deduplicated away or left without order evidence: the aggregates are folds over one event for each outbox row. |
| `EndToEnd.CountersAreDirect` | pipelines/operational_coverage.py:72-250 | Under a clean audit the rows of each source table stand one to one for the events of its counter, so sums and numbers agree for every warehouse and client, also for those with no activity. |
| `EndToEnd.IdentityUnique` | pipelines/weekly_performance.py:347-367 | Two outbox rows of an audited week never share a business identity. |
| `AuditedWeek.CanonicalIsAt` | services/api/telemetry_utils.py:8-13 | The mapping that producer, validation and order evidence share puts LA, Los Angeles and los_angeles at los_angeles, ZGZ, Zaragoza and zaragoza at zaragoza, and no other text anywhere; the direct counts are stated on these texts, without the mapping. |
| `AuditedWeek.OneSite` | services/api/telemetry_utils.py:8-13 | No text stands for two sites. |
| `SettledWeek.GateIsExact` | pipelines/pipeline.py:361-423 | Audit in one state, extraction of the telemetry of a later one: the gate of a week is clear if and only if every event of the week was relayed before the audit, every entry and every event has a named client, no newer event arrived in between, no row of another service interferes, and every direct counter fits the column type; and then the KPIs are the direct counts. |
| `SettledWeek.RunningGateIsExact` | services/api/inventory_service.py:322-1010 | The same after every run of inventory commands, relay attempts and other telemetry writers from empty tables, with any further run between the two readings. |
| `SettledWeek.GateIffFits` | pipelines/publication.py:51-63 | In a settled week nothing but an overflow closes the gate. |
| `SettledWeek.ClearIsSettled` | pipelines/publication.py:308-347 | A clear gate proves that the week was relayed whole before the audit, names its clients, and shares no identity with a row of another service or week. |
| `SettledWeek.SoundIsConstrained` | services/api/inventory_models.py:28-264 | The table constraints that the end-to-end theorem assumes (foreign keys, UUIDs, unique identities, the event type of each source table) hold after every run of commands. |
| `SettledWeek.NoConflict` | pipelines/extraction.py:292-331 | No identity of a settled week conflicts, neither within the week nor with another ISO week. |
| `SettledWeek.OneOccurrence` | pipelines/extraction.py:134-148 | A business identity of a settled week occurs in one row of the whole telemetry table. |
| `SettledWeek.ExtractedIsAudited` | pipelines/operational_coverage.py:253-268 | Extraction and audit of a settled week read the same events, as multisets of canonical events, also when the extraction reads later. |
| `SettledWeek.NoOverflowIff` | pipelines/weekly_performance.py:656-701 | The transformation finds an overflow if and only if some direct counter of the week does not fit. |
| `PublishedWeek.ReportIsOperations` | services/reporting/store.py:42-52 | If the last publication of a week took its batch from a clear gate, every report of the week, read over any interleaving of later steps, has one row for each warehouse and client that did anything, with exactly the direct counts of the operational tables. |
| `PublishedWeek.ClearBatchIsValid` | pipelines/publication.py:246-305 | The batch of a clear gate passes the publication checks if and only if the week is over and something happened in it. |
| `PublishedWeek.BatchIsDirect` | pipelines/publication.py:489-615 | The rows of the batch of a clear gate are the direct counts, whatever the order of the batch. |
| `PublishedWeek.AggregatesArePublishable` | pipelines/publication.py:745-817 | No transformation, of whatever rows, yields an aggregate that the publication would refuse for its own week. |
| `AuditedWeek.ExtractedRows` | pipelines/operational_coverage.py:253-268 | When the extracted events are the audited ones, they are exactly the mapped outbox rows of the week. |
| `QualityGate.GateIffNoContradiction` | pipelines/publication.py:308-347 | For every prepared batch and all evidence: with confirmed coverage the gate is clear if and only if nothing prepared blocks, conflicts or waits, no counter overflows, and no order is contradicted by its evidence; missing and unavailable evidence does not matter. |
| `QualityGate.RefusedOrderPasses` | pipelines/publication.py:51-63 | An order without evidence is rejected, and gate and aggregates are those of the batch without its event. |
| `GateMeaning.GateExact` | pipelines/publication.py:308-347 | For all rows, evidence and records: the gate is clear if and only if the audit is silent and saw these rows, every id and every row is readable, no id carries two contents, no identity clashes or waits for its weeks, no kept order is disputed, and every counter fits. |
| `InventoryRuns.StockSafety` | services/api/inventory_service.py:465-619 | After any run of commands the stock of every SKU and warehouse is non-negative and is the balance of the journal; every checkpoint carries the stock just before and just after its movement in serialisation order, neither of them negative. |
| `InventoryRuns.RunSound` | services/api/inventory_service.py:322-1010 | Every state reachable by commands has consistent rows and balanced books, and no command ever changes or removes an earlier row. |
| `InventoryRuns.ExecuteKeeps` | services/api/inventory_service.py:322-1010 | Each single command keeps all of that, whatever its payload and whatever UUIDs it draws. |
| `InventoryRuns.FailureChangesNothing` | services/api/inventory_service.py:441-444 | A command that fails, or finds its work done, changes no table. |
| `InventoryRuns.ValidOrderIsPlaced` | services/api/inventory_service.py:855-948 | An order that passes validation is placed whole: with new UUIDs its dispatch loop cannot fail half-way. |
| `InventoryRuns.OneEventPerOrder` | services/api/inventory_service.py:931-941 | Each order has exactly one `outbound_order_created` row, ever, also after later appends. |
| `InventoryOrders.AddDispatchesSucceeds` | services/api/inventory_service.py:764-852 | Validating the totals of a command is enough for each partial movement: several dispatches of one SKU never drive its stock negative. |
| `InventoryOrders.AddDispatchesKeeps` | services/api/inventory_service.py:792-852 | The dispatch loop keeps every row consistent and the books balanced, records every item under its order, and enqueues nothing but threshold events. |
| `InventoryOrders.SortByIdKeeps` | services/api/inventory_service.py:810 | Sorting the dispatches keeps the items, their distinct ids and what they require of each SKU. |
| `InventoryOrders.SortByIdOrders` | services/api/inventory_service.py:810 | The sorted dispatches ascend strictly by the text of their ids. |
| `InventoryOrders.CloseOrderKeeps` | services/api/inventory_service.py:919-941 | The order event completes the order it belongs to and touches no other row. |
| `InventoryLedger.BalancedStep` | services/api/inventory_service.py:145-173 | Appending one exact checkpoint keeps stock, journal and checkpoints in balance. |
| `InventoryReplays.CountIdempotent` | services/api/inventory_service.py:658-672 | A confirmed count is found again by every later identical command, after any other commands, without a change; the same id with other content is a conflict without a change. |
| `InventoryReplays.OrderReused` | services/api/inventory_service.py:868-884 | A command that names an existing order succeeds exactly when it describes the order as it stands, and changes nothing either way. |
| `InventoryReplays.OrderIdempotent` | services/api/inventory_service.py:868-884 | Repeating an order creation after any other commands finds the order again if and only if no dispatch was appended in between; otherwise it is a conflict. |
| `InventoryReplays.AppendIdempotent` | services/api/inventory_service.py:951-1010 | Repeating an append after any other commands changes no table and emits no event. |
| `InventoryReplays.AppendConflict` | services/api/inventory_service.py:972-984 | A dispatch id that carries other content is refused whole. |
| `InventoryReplays.ThresholdRearms` | services/api/inventory_service.py:100-142 | Between two threshold events of one SKU, where the threshold was not lowered, a stock entry lifted the stock back above the threshold. |
| `InventoryReplays.EventIffCrossed` | services/api/inventory_service.py:100-173 | An exit has a threshold event exactly when it took the stock from above the evaluated threshold to the threshold or below. |
| `InventoryOutcomes.EntryExact` | services/api/inventory_service.py:322-457 | A stock entry is recorded if and only if the SKU is known, the warehouse is its own, the quantity is positive, and the id of its event, where there is one, is new; the tables afterwards are given column by column, the balance of that SKU and warehouse rises by the quantity and no other changes; every other reply has its own cause and changes nothing. |
| `InventoryOutcomes.ExitExact` | services/api/inventory_service.py:465-619 | A stock exit is recorded if and only if the SKU is known, the warehouse is its own, the quantity is positive and at most the balance of its movements, the tracking fits the type, and where it reaches the threshold the SKU has a client and the event id is new; all columns it writes, with checkpoint and event, are given. |
| `InventoryOutcomes.ExitMovesBalance` | services/api/inventory_service.py:525-560 | A recorded exit lowers the balance of its SKU and warehouse by exactly its quantity, down to zero, and no other balance. |
| `InventoryOutcomes.CountExact` | services/api/inventory_service.py:648-739 | A first physical count is recorded if and only if its SKU is known, has a client and belongs to the warehouse, with a new event id where it differs; count and event are given column by column, and no stock moves. |
| `InventoryOutcomes.SkuCommandsExact` | services/api/routes/inventory.py:185-250 | A SKU is created once for its id, and a threshold is set exactly for a known SKU. |
| `OrderOutcomes.OrderExact` | services/api/inventory_service.py:855-948 | A new order is placed if and only if it is well formed, no dispatch id is taken, every SKU exists and belongs to its client and warehouse, and for each SKU the items together stay within the balance; then the order, its event, one exit for each item in the order of the ids and the fall of every balance are given. |
| `OrderOutcomes.RefusalExact` | services/api/inventory_service.py:764-789 | What refuses the items of a command, and with which reply: an unknown SKU, one of another client or warehouse, or a sum of quantities above the balance. |
| `OrderOutcomes.AppendExact` | services/api/inventory_service.py:951-1010 | An append succeeds if and only if it is well formed, each id is new or on the order with the same content, and nothing refuses the new items together; it writes one exit for each new item and no order event; without a new item it changes nothing. |
| `OrderOutcomes.AppendUnknown` | services/api/inventory_service.py:966-971 | An append to an unknown order is not found. |
| `OrderOutcomes.PayloadExact` | services/api/inventory_schemas.py:202-244 | A payload is well formed exactly with version 4 ids, one for each item, positive SKU ids and quantities, tracking texts, and a domain warehouse with a client for a new order. |
| `InventoryService.Session.Handle` | services/api/inventory_service.py:322-1010 | The service over its mutable session does what the command specification says, replies included, and keeps the tables sound. |
| `InventoryService.Session.CreateStockEntry` | services/api/inventory_service.py:322-457 | A stock entry, its event and its checkpoint are written together or not at all; no event is written for a SKU without a client. |
| `InventoryService.Session.CreateStockExit` | services/api/inventory_service.py:465-619 | The same for an exit; `InventoryOutcomes.ExitExact` says exactly when it is recorded. |
| `InventoryService.Session.ConfirmPhysicalCount` | services/api/inventory_service.py:648-739 | A count is stored once for its id, with a discrepancy event exactly when observed and expected differ. |
| `InventoryService.Session.ValidateOrderSkus` | services/api/inventory_service.py:764-789 | Existence, ownership and totals of the items, against the stock at that moment. |
| `InventoryService.Session.AddOrderDispatches` | services/api/inventory_service.py:792-852 | The loop with its `running` dictionary does what recomputing the stock before each movement would do. |
| `InventoryService.Session.CreateCommercialOrder` | services/api/inventory_service.py:855-948 | The order command with its idempotence check, validation, dispatch loop and event. |
| `InventoryService.Session.AppendCommercialOrderDispatches` | services/api/inventory_service.py:951-1010 | The append command: replayed items are skipped, foreign ones refuse it whole. |
| `InventoryService.Session.CurrentStocks` | services/api/inventory_service.py:205-256 | The bulk stock map agrees with the per-SKU sum for every SKU and warehouse, and lists exactly the pairs that moved. |
| `InventoryService.Session.CurrentStock` | services/api/inventory_service.py:259-314 | The stock of one SKU and warehouse is the sum of its entries less the sum of its exits. |
| `InventoryService.Session.EnqueueInventoryEvent` | services/api/inventory_outbox.py:84-126 | An outbox row is written once for its source row, under a version 4 UUID that no other row has. |
| `InventoryService.Session.RecordThresholdEvaluation` | services/api/inventory_service.py:145-173 | One checkpoint for a movement, refused if one exists or a level would be negative. |
| `InventoryService.Session.UpdateSkuThreshold` | services/api/inventory_service.py:622-641 | Configuring a threshold changes that SKU only and emits nothing. |
| `InventoryService.Difference` | services/api/inventory_service.py:247-256 | The combination of both aggregates over the union of their keys. |
| `OutboxRelay.AttemptFaithful` | pipelines/outbox_relay.py:65-179 | Whatever crash or error strikes around the two commits of a row: no destination row is overwritten, nothing undelivered is acknowledged, other rows keep, and a conflicting row stays pending. |
| `OutboxRelay.Relay.RelayInventoryOutbox` | pipelines/outbox_relay.py:85-179 | The bounded loop produces the reply and both databases of the specified run, stopping at the first failure. |
| `OutboxRelay.CallIsSafe` | pipelines/outbox_relay.py:85-179 | The same safety for a whole call. |
| `OutboxRelay.FairCall` | pipelines/outbox_relay.py:107-177 | A fault-free call delivers as many pending rows as its limit allows and reports that number, so the pending count strictly decreases until it is zero. |
| `OutboxRelay.OutboxDrains` | pipelines/outbox_relay.py:85-179 | Enough fault-free calls empty an outbox in which nothing conflicts. |
| `OutboxRelay.DrainsIffNoConflict` | pipelines/outbox_relay.py:85-179 | Enough fault-free calls empty the outbox if and only if no pending row conflicts with the destination. |
| `OutboxRelay.ConflictBlocks` | pipelines/outbox_relay.py:132-145 | A conflicting row at the head of the queue is all that any later call reaches: nothing behind it is delivered. |
| `RelayOrder.FairCallInOrder` | pipelines/outbox_relay.py:107-145 | A fault-free call delivers exactly the first rows by time and then by event id: a row waits on if and only if at least as many rows as the call may deliver were waiting before it. |
| `RelayOrder.FaultEndsCall` | pipelines/outbox_relay.py:120-177 | A call takes the first unlocked pending row each time and goes on after a delivery only; any other fate of a row is its last, and decides its reply. |
| `RelayOrder.AttemptExact` | pipelines/outbox_relay.py:65-179 | Both databases after one attempt, column by column, for every crash, error and conflict. |
| `RelayOrder.ConflictExact` | pipelines/outbox_relay.py:48-82 | A destination row conflicts exactly when a column other than the tags differs, or the tags differ and are not both empty. |
| `RelayOrder.TargetExact` | services/api/telemetry_storage.py:101-143 | The destination row keeps id, time and type, and exactly the tags that are exported for the type. |
| `ProducerRuns.EffectivelyOnce` | pipelines/outbox_relay.py:85-179 | Over any run with crashes anywhere, an acknowledged row has exactly its mapped row at the destination, every official destination row is the mapped row of an outbox row and of no second one, and no destination row ever changes. |
| `ProducerRuns.ConflictNeverPublished` | pipelines/outbox_relay.py:48-82 | A row whose event id is taken by other content at the destination is pending for ever. |
| `ProducerRuns.RowTarget` | services/api/telemetry_storage.py:101-143 | The allowlist filters nothing out of a row that a command wrote. |
| `ProducerRuns.CanonicalExact` | pipelines/outbox_relay.py:48-62 | The canonical form confuses no other destination row with the row of a command. |
| `CoverageCompleteness.AuditIsExact` | pipelines/operational_coverage.py:72-250 | After any run, with the operational tables read first and telemetry read later, the audit of any week has no diagnostic if and only if every event of the week was acknowledged, no entry of the week lacks a client, and no newer event has reached telemetry. |
| `CoverageCompleteness.RelayedWeekPasses` | pipelines/operational_coverage.py:72-250 | After any commands on SKUs with clients and a full relay the audit of every week passes, also for orders whose dispatches were appended in later weeks. |
| `OperationalCoverage.CleanIsNoDiagnostics` | pipelines/operational_coverage.py:72-250 | The audit is silent exactly when every row of the snapshot passes its own checks and the global key sets agree. |
| `CoverageMeaning.DiagnosticsExact` | pipelines/operational_coverage.py:72-250 | For every snapshot, reachable or not, and every diagnostic code: the audit reports it if and only if some row, or the snapshot as a whole, is wrong in exactly that way; each way is stated on positions, columns and constants. |
| `AuditEvidence.PairsExact` | pipelines/operational_coverage.py:106-113 | For every snapshot: a dispatch id and an order id are a returned pair if and only if an order of the week and a dispatch row carry them and refer to each other by primary key. |
| `AuditEvidence.EvidenceIsExact` | pipelines/coordinator.py:447-471 | In every state of the inventory no dispatch id has two pairs, every order of the week has one, and the coordinator finds the evidence of the audit sufficient exactly when the audit is silent. |
| `AuditEvidence.RunningEvidenceIsExact` | pipelines/coordinator.py:447-471 | Over every run: the coordinator accepts the coverage of the audit if and only if every event of the week was acknowledged, every entry has a client, and no newer event has reached telemetry. |
| `AuditEvidence.PairsOnce` | pipelines/coordinator.py:460-470 | With distinct dispatch ids no dispatch belongs to two pairs. |
| `OperationalCoverage.AuditOperationalSnapshot` | pipelines/operational_coverage.py:72-250 | The loops over the snapshot return the diagnostics, dispatch pairs and audited events of the specification. |
| `OperationalCoverage.AuditEntries` | pipelines/operational_coverage.py:91-104 | The loop over the entries finds what each entry is missing, and expects their keys. |
| `OperationalCoverage.AuditOrders` | pipelines/operational_coverage.py:106-120 | The same for the orders; its dispatch pairs are exactly those of `AuditEvidence.PairsExact`. |
| `OperationalCoverage.AuditMovements` | pipelines/operational_coverage.py:122-165 | The same for the checkpoints and threshold events of the movements. |
| `OperationalCoverage.AuditCounts` | pipelines/operational_coverage.py:167-195 | The same for the physical counts. |
| `OperationalCoverage.AuditRows` | pipelines/operational_coverage.py:209-236 | The same for the delivery of the outbox rows. |
| `Extraction.ExtractWeeklyInputs` | pipelines/extraction.py:219-407 | An extraction is one week of official rows in any order, the weeks of each identity over the whole table, and the dispatch evidence of its orders; it is refused exactly for a date that is no Monday. |
| `Extraction.CrossWeekExact` | pipelines/extraction.py:292-331 | On extracted inputs an identity is rejected for its weeks if and only if it also occurs in another ISO week. |
| `Extraction.NothingPending` | pipelines/weekly_performance.py:356-367 | On extracted inputs no validated event is left waiting for cross-week verification. |
| `Extraction.EventWeek` | pipelines/weekly_performance.py:205-218 | Every extracted event has the requested week as its ISO week. |
| `Extraction.ValidRowKey` | pipelines/extraction.py:134-148 | The extraction and the validation agree on the identity of every valid row. |
| `ExtractionMeaning.EventsExact` | pipelines/extraction.py:33-42 | The extracted events are the rows of the four business types whose instant lies in the week, of every service, each once and with its columns. |
| `ExtractionMeaning.WeeksExact` | pipelines/extraction.py:292-331 | There is complete evidence for exactly the identities named in the week, and its weeks are those of all rows that name the identity, in the whole table. |
| `ExtractionMeaning.RecordsExact` | pipelines/extraction.py:55-69 | The records hold exactly the requested orders with a canonical version 4 id and a dispatch, each with its site, client and number of dispatches; the evidence is complete exactly when every requested id is canonical. |
| `Vocabulary.WeekBoundsExact` | pipelines/weekly_performance.py:205-218 | The half-open bounds of a Monday contain exactly the instants whose ISO week it is. |
| `Vocabulary.WeekStartExact` | pipelines/weekly_performance.py:205-208 | The week of an instant starts on a Monday (1970-01-05 was one) and contains it. |
| `Identifiers.CanonicalParses` | pipelines/weekly_performance.py:178-186 | A canonical UUID text is parsed as itself. |
| `Identifiers.ParsedIsCanonical` | pipelines/weekly_performance.py:178-186 | The parser returns canonical texts only, so reading its result again changes nothing. |
| `Identifiers.IntTextInjective` | services/api/inventory_service.py:322-457 | The text of a row id never identifies two rows. |
| `Identifiers.DecimalExact` | services/api/inventory_service.py:322-457 | The text of a row id is its decimal numeral without a leading zero. |
| `Identifiers.LessExact` | pipelines/outbox_relay.py:107-116 | The order of texts: after a common prefix the shorter text, or the smaller character, comes first. |
| `Identifiers.VersionAndVariant` | pipelines/weekly_performance.py:282-289 | Version 4 is the version digit 4 with the variant bits 10. |
| `Identifiers.DecoratedParses` | pipelines/weekly_performance.py:178-186 | Braces or missing dashes make no difference to the parser. |
| `Identifiers.WrittenOtherwise` | pipelines/weekly_performance.py:178-186 | Neither does the case of the digits, nor a URN prefix. |
| `WeeklyPerformance.Partition` | pipelines/weekly_performance.py:370-487 | Accepted, rejected and repeated ids partition the distinct valid row ids. |
| `WeeklyPerformance.OrderAndRepetition` | pipelines/weekly_performance.py:370-487 | Neither the order of the input nor repeating its rows changes an aggregate, an issue or a verdict. |
| `WeeklyPerformance.AggregatesAreFolds` | pipelines/weekly_performance.py:631-719 | Without overflow each grain with an accepted event has exactly one aggregate, whose counters are sums over the accepted events; with an overflow there is no aggregate at all. |
| `WeeklyPerformance.KeptOnce` | pipelines/weekly_performance.py:370-487 | An identity is kept, with exactly one event, if and only if its rows agree with each other and with the evidence. |
| `WeeklyPerformance.RepresentativeExists` | pipelines/weekly_performance.py:440-464 | Each identity has exactly one representative, its least row id. |
| `TransformMeaning.RowExact` | pipelines/weekly_performance.py:263-322 | Validation accepts a row if and only if it is readable, and returns what it says: id, service, type, instant and ISO week, site, client, identity and quantity of its type, product. |
| `TransformMeaning.AcceptedExact` | pipelines/weekly_performance.py:631-719 | For all rows, evidence and records: an id is accepted if and only if its row is readable and of one content, has the least id of an identity without a clash, is backed by the record of its order if it is outbound, and its counter fits. |
| `TransformMeaning.AggregateExact` | pipelines/weekly_performance.py:490-719 | There is one aggregate for each warehouse, client and week of an event that counts, with its four tallies and their quotient, and none at all as soon as one tally exceeds 2,147,483,647. |
| `TransformMeaning.ConflictExact` | pipelines/weekly_performance.py:347-464 | An identity is in conflict if and only if two of its events differ in warehouse, client, tags or week, its complete evidence names other weeks or several, or the record of its order says something else than its kept event. |
| `TransformMeaning.RepetitionExact` | pipelines/weekly_performance.py:356-464 | Exactly which ids and identities are reported as repeated, and which wait for verification. |
| `TransformMeaning.RepeatedRowExact` | pipelines/weekly_performance.py:384-406 | An id is reported as a repeated row exactly when two positions hold it and all its rows have one content. |
| `TransformMeaning.IssueExact` | pipelines/weekly_performance.py:370-719 | For every issue code: the issue is in the result if and only if what it says of rows, evidence and records is the case. |
| `WeeklyTransform.TransformWeeklyPerformance` | pipelines/weekly_performance.py:722-741 | The loops of the transformation compute the specified result. |
| `WeeklyTransform.PrepareWeeklyEvents` | pipelines/weekly_performance.py:370-487 | The two deduplications with their issue lists, as loops over indexes and sorted groups. |
| `WeeklyTransform.UniqueRows` | pipelines/weekly_performance.py:384-406 | One row for each id of one content, the ids of several contents, and the repeated ids; comparing with the first row of an id compares every pair. |
| `WeeklyTransform.SortIdentities` | pipelines/weekly_performance.py:439-464 | The loop over the identities: verification, conflict, representative. |
| `WeeklyTransform.Calculate` | pipelines/weekly_performance.py:490-526 | One counter for each grain, with the events it counted. |
| `WeeklyTransform.CalculateOutbound` | pipelines/weekly_performance.py:529-602 | Only orders that the dispatch evidence verifies are counted; each refusal has its own code. |
| `WeeklyTransform.Compose` | pipelines/weekly_performance.py:631-719 | One counter that does not fit withdraws its events and empties the whole result. |
| `Lease.WeekLeases.AcquireWeekLease` | pipelines/concurrency.py:218-266 | Acquiring: who is granted, who is refused, and that the uncertain answer needs a clock that went back between lock and update. |
| `Lease.WeekLeases.VerifyWeekLease` | pipelines/concurrency.py:269-297 | Verification succeeds exactly for the current owner and token of an unexpired lease. |
| `Lease.WeekLeases.RenewWeekLease` | pipelines/concurrency.py:300-324 | Renewal moves the expiry of a lease that still verifies to the given seconds after the reading of the clock, and nothing else. |
| `Lease.WeekLeases.ReleaseWeekLease` | pipelines/concurrency.py:327-349 | Release needs owner and token, not an unexpired lease, and keeps the pointer. |
| `Lease.LockedRowIsUpdated` | pipelines/concurrency.py:94-115 | While the database clock never goes back, a row found free under the lock is always granted. |
| `Lease.ClockGoingBackIsUncertain` | pipelines/concurrency.py:218-266 | If the clock can go back, the branch for a locked but not updated row is reachable. |
| `Lease.GrantFences` | pipelines/concurrency.py:94-164 | A granted lease holds at once, under a token that no earlier holder can verify, renew or release with. |
| `Lease.GrantLasts` | pipelines/concurrency.py:94-115 | A granted lease verifies for its owner and token at exactly the instants before the reading of the clock plus the seconds. |
| `Lease.RenewLasts` | pipelines/concurrency.py:136-150 | So does a renewed one. |
| `PublicationSafety.StepInv` | pipelines/coordinator.py:135-419 | Every step of any number of competing coordinators, lease holders and recoveries keeps the publication invariant. |
| `PublicationSafety.ReaderSeesWholeBatch` | services/reporting/store.py:42-52 | In every reachable state the pointer of a week and its rows are those of one commit; a report whose two reads are any number of steps apart is one whole published batch with the recorded row count. |
| `PublicationSafety.GrantsAreFenced` | pipelines/concurrency.py:94-115 | Tokens of a week strictly increase over the grants of any run. |
| `PublicationSafety.OnlyLatestGrantVerifies` | pipelines/concurrency.py:116-135 | In every reachable state a lease verifies only for the latest grant of its week. |
| `PublicationSafety.OpenWeekIsFrozen` | pipelines/concurrency.py:74-93 | While a publication is open, expired or not, nobody else changes the control row or the rows of its week. |
| `PublicationSafety.ReleaseNeverRejected` | pipelines/coordinator.py:290-310 | The lease is never found released or taken over before the transaction that locked its row ends. |
| `PublicationSafety.CommitIsThePointer` | pipelines/run_store.py:520-552 | A commit makes its run the pointer of the week and its batch the rows of the week, at once, with the lease released. |
| `PublicationSafety.OneCommitPerRun` | pipelines/coordinator.py:135-357 | Every run commits at most once. |
| `PublicationSafety.SuccessMeansCommitted` | pipelines/coordinator.py:327-347 | A run is recorded successful only if its business transaction committed. |
| `PublicationSafety.TerminalStays` | pipelines/run_store.py:50-73 | A terminal run is never changed again by any step. |
| `PublicationSafety.TerminalExact` | pipelines/run_store.py:50-73 | The terminal statuses are exactly those other than pending and running. |
| `PublicationSafety.RecoveryIsExact` | pipelines/coordinator.py:360-419 | Recovery recognises a run if and only if it made the last commit of the week with that fingerprint, rules version and row count; so from its commit until the week is published again, and never otherwise. |
| `PublicationSteps.ResolveIsExact` | pipelines/coordinator.py:360-419 | Over every run of the protocol: after a persisted resolution a run that was running is successful with an observed commit if and only if it made the last commit of the week with those values, and otherwise running with an uncertain commit; every other run, and every state without persisting, is unchanged. |
| `PublicationSteps.LostCommitIsResolved` | pipelines/coordinator.py:397-411 | A commit whose reply is lost leaves its run running and uncertain, and the resolution with its own values then records success exactly when the commit took effect. |
| `PublicationSteps.StepMoves` | pipelines/run_store.py:50-73 | Every step moves the status of a run only along one of the ten moves of run history. |
| `PublicationSteps.AcquireExact` | pipelines/concurrency.py:94-115 | All columns after an acquisition, and exactly when it grants. |
| `PublicationSteps.RenewExact` | pipelines/concurrency.py:136-150 | All columns after a renewal, and exactly when it takes effect. |
| `PublicationSteps.VerifyExact` | pipelines/concurrency.py:116-135 | Exactly when the verification opens the transaction. |
| `PublicationSteps.MarkExact` | pipelines/coordinator.py:541-550 | The run and the transaction after the mark, for a confirmed, failed or lost one. |
| `PublicationSteps.StageExact` | pipelines/publication.py:350-452 | Staging goes on exactly when every stored row of the week has its key in the batch. |
| `PublicationSteps.CommitExact` | pipelines/coordinator.py:647-654 | What the process knows after its commit, the no-op told apart. |
| `PublicationSteps.FinishExact` | pipelines/coordinator.py:327-347 | Success is recorded for a run that is still running, and for no other. |
| `PublicationSteps.ObserveExact` | pipelines/coordinator.py:634-644 | An unclear commit leaves a running run running, with what is known of it. |
| `PublicationSteps.UpdateRunExact` | pipelines/run_store.py:356-421 | An update of run history takes effect exactly from the expected status along an allowed move. |
| `Coordinator.Coordinator.PublishWeeklyBusinessReport` | pipelines/coordinator.py:135-357 | With any interference and any fault at any point, the call reports a publication only if its own batch was committed under its own run, which is durably successful, with counts that add up to the batch. It leaves the business transaction open if and only if it verified its lease and its mark was refused or failed. Without interference its answer, the record of its run and the reported rows are determined for every combination of faults; without faults it publishes, with exact counts, if and only if the input is authorised, the run pending, the lease in force and no published key left out, and otherwise ends with the status of the first condition that fails. |
| `Coordinator.AuthorisedExact` | pipelines/coordinator.py:422-444 | What authorises an input, condition by condition. |
| `Coordinator.CoverageExact` | pipelines/coordinator.py:447-471 | What makes coverage sufficient: a known source, a complete lookup, both required types, and non-empty pairs without a repeated dispatch. |
| `Coordinator.Coordinator.WriteAndCommit` | pipelines/coordinator.py:239-347 | After the mark: every way the call can end, and the counts of an undisturbed publication. |
| `Coordinator.MarkOpens` | pipelines/coordinator.py:234-238 | A refused or failed mark changes nothing and leaves the lock; one whose commit is lost is rolled back; any other one goes on. |
| `Coordinator.Coordinator.PublishWeekTask` | pipelines/pipeline.py:426-457 | However the coordinator leaves, no transaction of it is open after its caller closed the connections, a publication it reported still stands, and without interference the end is that of the coordinator. |
| `Coordinator.Coordinator.WriteRows` | pipelines/coordinator.py:239-257 | The counts reported are those of the week under the lock; a blocked, failed or refused batch ends the transaction and closes the run with the status and commit result of its cause. |
| `Coordinator.Coordinator.WritePointer` | pipelines/coordinator.py:258-310 | It ends with pointer and release in the open transaction and the rows of the week as they were read, or with no transaction open and no success reported. |
| `Coordinator.ReleaseOpens` | pipelines/coordinator.py:290-310 | The branch for a refused release is never taken, whatever the others did since the lock. |
| `WeeklyFlow.AcquireLeaseTask` | pipelines/pipeline.py:294-324 | The claim handed to the publication is the latest grant of the week; every other decision closes the run or raises, and without interference each has its exact condition. |
| `WeeklyFlow.WeeklyPerformanceFlow` | pipelines/pipeline.py:547-660 | A whole flow of an accepted run ends with no transaction open, and a success it returns is a publication of that week under that run, recorded as successful. Without interference its end is determined for every combination of faults; without faults it publishes exactly when the run is pending, the batch passes the gate at both readings, the week can be locked and leased, and no published key is left out. |
| `WeeklyUpsert.ValidateBatch` | pipelines/publication.py:246-305 | The issues are exactly those that `BatchExact` describes; there is none if and only if the batch is a closed Monday week with one publishable row for each key. |
| `WeeklyUpsert.BatchExact` | pipelines/publication.py:246-305 | For every batch and every issue: it is found exactly when what it says of the week, the clock or a row is the case; and a batch is valid exactly without any. |
| `WeeklyUpsert.RowIssuesExact` | pipelines/publication.py:745-817 | What is wrong with one row, issue by issue, up to the rate, the signs and the column width. |
| `WeeklyUpsert.KpiTable.Upsert` | pipelines/publication.py:127-146 | The UPSERT leaves the batch over the old rows, and RETURNING lists exactly the keys it inserted or changed, once each. |
| `WeeklyUpsert.KpiTable.StageWeeklyUpsert` | pipelines/publication.py:489-615 | Staging happens if and only if the batch is valid and no published key disappears; then the rows of the week are the batch, other weeks keep theirs, and the counts classify every row. |
| `WeeklyUpsert.CountsFromSnapshot` | pipelines/publication.py:949-981 | The classification against the locked rows succeeds exactly when RETURNING agrees with it. |
| `WeeklyUpsert.Classified` | pipelines/publication.py:949-981 | Inserted, updated and unchanged add up to the batch size. |
| `WeeklyUpsert.SnapshotClassifies` | pipelines/publication.py:949-981 | The locked rows of one week classify the batch as the whole table does. |
| `WeeklyUpsert.RestagingIsANoop` | pipelines/publication.py:127-146 | Staging the same batch again gives (0, 0, n) and changes no row. |
| `WeeklyUpsert.OtherWeeksKept` | pipelines/publication.py:489-615 | A batch of one week leaves the rows of every other week. |
| `TaskQueueSafety.StepInv` | services/task_queue/store.py:82-237 | Every step of workers, heartbeats, relays, reconciliations and publications keeps the queue invariant. |
| `TaskQueueSafety.StartsAtMostOnce` | services/task_queue/store.py:109-131 | Over every interleaving `start_prefect` succeeds at most once for a task, the attempt counter equals the epoch, and both stay at most three. |
| `TaskQueueSafety.PublishedMeansCommitted` | services/task_queue/tasks.py:284-309 | A task that says published belongs to a run that is durably successful with an observed commit. |
| `TaskQueueSafety.ReturnedIsDurable` | services/task_queue/tasks.py:284-309 | What a coordinator returned as recorded is durably successful, by the publication invariant and not by a check of the worker. |
| `TaskQueueSafety.DeadLetteredHasLetter` | services/task_queue/tasks.py:70-76 | A dead-lettered task has a dead letter for its own run. |
| `TaskQueueSafety.ClosedStays` | services/task_queue/store.py:165-190 | Closed states are absorbing under every step; a task that waits for its dead letter can only get it. |
| `TaskExits.LetterOfALiveTask` | services/task_queue/tasks.py:243-248 | In every state of the queue: after the first storable letter of a task, from a failed preflight or a failed flow, the letter exists and the task is dead-lettered if and only if the worker still held its claim or execution. |
| `TaskExits.LetterAfterFail` | services/task_queue/tasks.py:243-257 | With or without an earlier letter: the letter is written whether or not the worker is fenced, the state of the task changes only if it is not. |
| `TaskExits.LetterAfterComplete` | services/task_queue/tasks.py:295-305 | The same after a flow that failed. |
| `TaskExits.LetterOfALiveTaskIsReached` | services/task_queue/tasks.py:243-248 | A run from the start leaves a letter for a task that a second worker has claimed. |
| `TaskExits.ThirdClaimIsStuck` | services/task_queue/store.py:82-96 | Over every run of steps, a task out of attempts whose claim expired never starts Prefect; it stays claimed if and only if the run takes none of the exits. |
| `TaskExits.StuckStep` | services/task_queue/store.py:193-237 | The exits from such a claim are exactly a repair that the history of the run decides, and the retry or failure of the holder itself. |
| `TaskExits.ThirdClaimIsReached` | services/task_queue/store.py:82-96 | Three abandoned claims of a new task lead there. |
| `TaskQueueSafety.RepairCloses` | services/task_queue/reconciliation.py:10-32 | One repair closes every task that `reconcile_one` selects, as soon as its dead letter can be stored. |
| `TaskSteps.ClaimExact` | services/task_queue/store.py:82-106 | For every state: a claim leaves the task in preflight under the next epoch and attempt with the given token and lease if and only if fewer than three attempts were made and the task is accepted, queued, due for its retry, or in preflight under a lease that ran out; otherwise nothing changes. |
| `TaskSteps.DeliveredTaskIsClaimed` | services/task_queue/store.py:82-106 | Accepted, claimed by a relay, handed over, acknowledged and delivered: the worker then holds the task under epoch 1. |
| `TaskSteps.AcceptExact` | services/task_queue/store.py:52-75 | A task is accepted exactly for a Monday week without a pending or running run, under new ids; run, task and dispatch row appear together. |
| `TaskSteps.StartExact` | services/task_queue/store.py:109-143 | A start takes effect exactly for the holder of an unexpired preflight claim. |
| `TaskSteps.HolderSteps` | services/task_queue/store.py:146-207 | A heartbeat prolongs the holder's execution, a retry gives the holder's claim back, and nothing else does. |
| `TaskSteps.FailExact` | services/task_queue/store.py:210-237 | A failed preflight: the letter in any case, the task only for its holder. |
| `TaskSteps.CompleteExact` | services/task_queue/tasks.py:284-309 | The state, the published flag and the letter for every result of the flow. |
| `TaskSteps.RepairExact` | services/task_queue/reconciliation.py:34-83 | The state and the published flag of a task after its repair, for every status and commit of its run; success with an observed commit makes it succeeded and published. |
| `TaskSteps.SelectedExact` | services/task_queue/reconciliation.py:10-32 | Exactly which tasks the reconciler looks for. |
| `TaskSteps.SweepExact` | services/task_queue/relay.py:14-27 | The sweeps of a relay, row by row. |
| `TaskSteps.ClaimRowExact` | services/task_queue/relay.py:14-35 | A dispatch row is claimed exactly when it waits with attempts left, is due, and no lease on it runs. |
| `TaskSteps.AcknowledgeExact` | services/task_queue/relay.py:62-71 | One claim is one hand-off; an acknowledgement publishes the relay's own row and queues its task. |
| `TaskSteps.GiveUpExact` | services/task_queue/relay.py:48-61 | After an error of the publisher the own row waits, or is given up at the limit. |
| `TaskSteps.RelayedExact` | services/task_queue/relay.py:42-71 | One undisturbed relay: a due row, and no other, is handed over once, and is published or waits or is given up. |
| `TaskWorker.Session.RunWeeklyPipelineTask` | services/task_queue/tasks.py:176-330 | Among any interference the worker performs exactly the steps of one path, and the path is decided by the claim, the message and the probe. A task is started at most once, a result is returned only for a closed task, the result is a publication if and only if the worker's own coordinator returned one, and that only for a run that is durably successful. An undisturbed worker closes its task with exactly what the flow answered, whatever faults the flow met. |
| `TaskWorker.Session.RunClaimed` | services/task_queue/tasks.py:226-309 | The worker after its claim: retry while attempts are left, otherwise a dead letter; a start only after a good probe. |
| `TaskWorker.Session.RunPipeline` | services/task_queue/tasks.py:267-285 | The flow runs on the shared publication tables, among other steps on the task rows; a publication comes back if and only if this worker's own coordinator returned it, and every result is read as the flow answered it. |
| `TaskWorker.Session.CloseExecution` | services/task_queue/tasks.py:276-309 | The result is written under the claim of its own epoch: the whole task row, and the reply, are those of the result; a recorded publication marks the task published. |
| `TaskWorker.Session.BeginExecution` | services/task_queue/tasks.py:258-265 | After a good probe: a start exactly for a claim that is still the worker's own and has not run out, and then one flow. |
| `TaskWorker.Session.ClaimExecution` | services/task_queue/store.py:82-106 | A claim is granted exactly for a known task that may be claimed, under a new epoch that is also the attempt, with the columns of `TaskSteps.ClaimExact`. |
| `TaskWorker.Session.StartExecution` | services/task_queue/store.py:109-131 | A start succeeds exactly for the holder of an unexpired preflight claim, and is then the first of its task. |
| `TaskWorker.Session.ReconcileTask` | services/task_queue/reconciliation.py:34-83 | The repair of one locked task follows the history of its run. |
| `TaskWorker.Session.ReconcileOne` | services/task_queue/reconciliation.py:10-32 | One task that needs repair is repaired, whenever there is one. |
| `TaskWorker.Session.RelayOnce` | services/task_queue/relay.py:42-71 | A claimed row is handed over once and then acknowledged or delayed under its own token. Where nobody else touches it, a row is relayed if and only if it is due, and after an error it waits 2, 4, 8 and so on up to 256 seconds, at most the configured time. |
| `DispatchSafety.HandOffsBounded` | services/task_queue/relay.py:14-35 | With one attempt limit, no row is handed to the publisher more often than the limit, over any run of relays. |
| `DispatchSafety.PublishedAgree` | services/task_queue/relay.py:62-71 | With one attempt limit, a row is published if and only if its task says so. |
| `DispatchLimits.AgreementIsExact` | services/task_queue/relay.py:49-70 | Over every run, with any limits: row and task agree on published if and only if no relay of the run gave up, at or over its own limit, a row that another one had published; otherwise the row is published and the task says not. |
| `DispatchLimits.AgreementStep` | services/task_queue/relay.py:49-70 | Whatever the limits, exactly such a step loses the agreement, and what is lost stays lost. |
| `DispatchLimits.TwoLimitsDisagree` | services/task_queue/relay.py:58-60 | For every two different limits there is a run that ends in disagreement. |
| `DispatchSafety.SupersededRelayIsHarmless` | services/task_queue/relay.py:52-66 | A relay whose token was replaced, or whose row was declared uncertain, cannot change the row. |
| `DispatchSafety.PublishedIsFinal` | services/task_queue/relay.py:62-71 | A published row is final under every step, whatever the limits. |
| `InventoryRoutes.Api.ListProducts` | services/api/routes/inventory.py:117-135 | The served product list lists every SKU once with its current stock, whether it came from the cache or not; a list stays cached until the end of its time, and a new one for the configured time. |
| `InventoryRoutes.Api.ListOrdersEndpoint` | services/api/routes/inventory.py:410-438 | The served order list is the one a recomputation would return, cached in the same way, and the integrity error never occurs. |
| `InventoryRoutes.Api.Write` | services/api/inventory_service.py:453-455 | Every write keeps the caches coherent for every engine, and what it drops is exact: nothing for a count or a command that wrote nothing, the products for a new SKU, both lists otherwise. |
| `InventoryRoutes.Unaffected` | services/api/routes/inventory.py:185-250 | Where a path invalidates nothing (a physical count, a refused or repeated command, the order list after a new SKU), the projection it leaves cached is still right. |
| `InventoryRoutes.CountKeepsProjections` | services/api/inventory_service.py:648-739 | A physical count changes neither projection. |
| `InventoryRoutes.NewSkuKeepsOrders` | services/api/routes/inventory.py:185-250 | A new SKU leaves the order list as it is and adds one row without stock to the product list. |
| `InventoryRoutes.EntryStalesProducts` | services/api/inventory_service.py:453-455 | After a stock entry no earlier product list is right any more: the invalidation is needed. |
| `InventoryRoutes.ListOrders` | services/api/inventory_service.py:1018-1107 | The list is ascending by time, type and id, with one row for each movement; it fails exactly when a movement refers to a missing SKU. |
| `InventoryRoutes.MovementListUnique` | services/api/inventory_service.py:1103-1107 | The sorted list is determined by the tables. |
| `InventoryRoutes.MovementListExact` | services/api/inventory_service.py:1018-1107 | The order list, field by field: a row for every entry and exit with name and code of its SKU; ascending by time, at one instant entries first, then by id. |
| `InventoryRoutes.ProductListExact` | services/api/routes/inventory.py:117-135 | The product list, field by field: every SKU once, with its entries less its exits in its own warehouse. |
| `TtlCache.TTLCache.Lookup` | services/api/cache.py:43-52 | A live value or nothing; an expired entry is dropped and no other. |
| `TtlCache.TTLCache.Store` | services/api/cache.py:54-57 | A stored value is served for exactly the configured time. |
| `TtlCache.TTLCache.Size` | services/api/cache.py:69-74 | The size counts the live entries, and the others are dropped. |

## Left out

- Serial keys: the model numbers rows without gaps, while a rolled back PostgreSQL transaction may skip a number; no proof uses that numbers are consecutive.
- SQL text checks, connection duck-typing, SQLSTATE and message classification: a commit is observed, lost (applied or not) or refused, as the environment chooses.
- Issue messages, their order and their multiplicity, and sorted output tuples: issues, aggregates and id lists are sets; `discrepancy_rate` is the exact quotient as a real, without Decimal precision.
- Texts that Python's `int(hex, 16)` accepts besides hexadecimal digits (underscores, signs, other scripts), and Unicode whitespace above U+00A0 in `strip()`.
- `_stable_value`'s collision of lists with mappings, and `1 == True`: tags are compared structurally.
- Numeric columns that round, time zones, and timestamps finer than a microsecond: instants are integers.
- Prefect, Celery, Redis and threads: only the order of their steps; a delivery may happen, raise or be lost.
- Best-effort telemetry capture after a commit, logging, and redaction of messages.
- A rollback that itself fails: a rolled back transaction ends, with its connection at the latest.
- Authentication, suppliers, profiles, incident analysis, forecasts, migrations, seeds, job runner and nightly export: not part of this model.
- Technical coverage attestation and database identity checks: a coverage attestation is an input of the coordinator.
- The completeness test of a dependency fingerprint's text is a flag of the coordinator's input.
- Row-level concurrency of inventory commands: commands are serialised transactions, as their row and advisory locks make them; deadlocks and lock timeouts are not modelled.
- A cached projection read by another thread between a commit and its invalidation: the caches are proved for sequential requests; an engine keeps its identity as long as its cache entries.
- `client_name` of a SKU, and the telemetry capture of a new product.
- Which row a relay or reconciler picks among those it may pick: any of them.
- Backoff of a retried task: the time of the next attempt is an input, since it comes from the worker's own clock.
- Supervision of task states shown to users (`celery_state`, error columns, summaries).
