# Credit ledger core, modelled in Dafny

This project models the core of a credit-ledger service. The service keeps
issuer and merchant accounts, each with an available and a reserved balance.
It records inbound and cashback transactions and posts their double entries.
It reacts to hold-lifecycle events from a separate hold service, and it
announces its own changes through a transactional outbox that publishing
loops drain to a stream.

Money is held in integer minor units: the balance and amount columns are
decimals with scale 2, so 250.00 is 25000 here.

The model has nine modules:

- `Model` (model.dfy): the entities (`Account`, `Transaction`,
  `TransactionEntry`, the outbox payloads) and the three exception kinds,
  IllegalArgument, IllegalState and Runtime. The HTTP layer maps these to
  400, 409 and 500.
- `Messages` (messages.dfy): request and response records, the hold request
  and reply, and the three inbound hold events.
- `Decimal` (decimal.dfy): the decimal renderings the code uses as text. A
  stream key is `Long.toString` of an id, and one error message holds an
  amount.
- `Outbox` (outbox.dfy): `OutboxEventServiceImpl`, as a class over the event
  list, together with the functions that specify its fetch and its
  mark-as-done steps.
- `Idempotency` (idempotency.dfy): the processed-event log that the hold
  handlers consult.
- `Database` (database.dfy): the ledger tables, as a class, and `Store`, a
  snapshot of all state.
- `HoldEvents` (hold_events.dfy): `HoldEventServiceImpl`. `Deliver`
  specifies one handler call on a `Store`. `HoldEventService` performs the
  call step by step on the stores, with explicit rollback of the unit of
  work.
- `Transactions` (transactions.dfy): `TransactionServiceImpl`. `CreateInbound`,
  `Commit` and `Cashback` are the specifications, and `TransactionService`
  holds the imperative methods proved against them.
- `Publishing` (publishing.dfy): the two publishing loops, each a `for` loop
  over the fetched batch, proved against `MarkAll` and the messages sent.
- `Scenarios` (scenarios.dfy): hold-then-commit consequences.

Each service method is one unit of work: all of its ledger and outbox writes
commit, or none do. One exception is a hold handler's FAILED record in the
processed-event log, which outlives the rollback.

The external calls are inputs:

- The hold-service call is a function `holdService` from the request sent to
  a `HoldReply` (transport failure, empty body, or a body whose fields may be
  null).
- The stream send is an oracle `delivered` that says whether the send of an
  event succeeds.

Where the code departs from the intended design, the model follows the code:

- A failed hold call in `createInboundTransaction` throws a RuntimeException
  inside the transactional method. This rolls back the PENDING transaction
  and its `transaction.initiated` row, so neither survives the failure.
- Commit's "not AUTHORIZED" and "Hold ID mismatch" failures are
  IllegalArgument, so they map to 400, not to a conflict.
- Commit subtracts the amount from the issuer's available balance again,
  after `hold.created` has already moved it to reserved. It also lowers
  reserved with no floor. `Scenarios.CommitAfterHoldDebitsIssuerTwice` shows
  the result: after a 250.00 hold the issuer ends with 500.00, not 750.00.
  `Scenarios.CommitCanDriveAvailableNegative` shows available going negative.
  No non-negativity is claimed after commit or cashback.
- `processHoldCreated` has no transaction-status guard
  (`HoldEvents.HoldCreatedReauthorizesSettledTransaction`).
- Some tests disagree with the code:
  - `src/test/java/com/creditx/main/TransactionServiceTest.java:128` expects
    PENDING after an authorized hold. The code sets AUTHORIZED.
  - The integration tests expect non-authorized events on the stream. The
    scheduler streams only `transaction.authorized`.

## Model

| member | source | states |
|---|---|---|
| Decimal.DecimalRoundTrip | src/main/java/com/creditx/main/scheduler/OutboxEventPublishingScheduler.java:33 | the stream key (`Long.toString` of the aggregate id) reads back as that id |
| Decimal.DecimalStringInjective | src/main/java/com/creditx/main/scheduler/OutboxEventPublishingScheduler.java:33 | two aggregate ids share a stream key only if they are equal |
| Model.PairSums | src/main/java/com/creditx/main/service/impl/TransactionServiceImpl.java:301-316 | the total of a two-entry posting, overall and per transaction |
| Model.SumForAppend | src/main/java/com/creditx/main/service/impl/TransactionServiceImpl.java:313-315 | appending entries adds their per-transaction sum to the existing one |
| Outbox.Pending | src/main/java/com/creditx/main/service/impl/OutboxEventServiceImpl.java:36-38 | the filtered list holds only PENDING events drawn from the store, and is no longer than the store |
| Outbox.FetchPending | src/main/java/com/creditx/main/service/impl/OutboxEventServiceImpl.java:35-41 | exactly min(limit, number pending) events, all PENDING and from the store, forming the store-order prefix of the pending subsequence |
| Outbox.AppendEvent | src/main/java/com/creditx/main/service/impl/OutboxEventServiceImpl.java:24-31 | exactly one event with the given type, aggregate id and payload is appended, PENDING, with ids kept equal to positions and one more pending event; the existing events are unchanged |
| Outbox.Marked | src/main/java/com/creditx/main/service/impl/OutboxEventServiceImpl.java:45-56 | a marked event is no longer PENDING; it is PUBLISHED with publishedAt set iff published, otherwise FAILED with publishedAt kept; nothing else changes |
| Outbox.MarkAll | src/main/java/com/creditx/main/scheduler/OutboxEventPublisher.java:28-35 | marking the fetched events one after another keeps the store's size |
| Outbox.PendingRank | src/main/java/com/creditx/main/service/impl/OutboxEventServiceImpl.java:38-39 | a PENDING event sits in the pending list at its rank among the PENDING events before it |
| Outbox.PendingElements | src/main/java/com/creditx/main/service/impl/OutboxEventServiceImpl.java:36-40 | every fetched element is the store's event at its own id |
| Outbox.PublishCycleEffect | src/main/java/com/creditx/main/scheduler/OutboxEventPublishingScheduler.java:26-39 | after one cycle an event of the batch is marked as the loop decides, and every event outside the batch is untouched |
| Outbox.PublishCycleDrainsBatch | src/main/java/com/creditx/main/scheduler/OutboxEventPublisher.java:26-36 | over every store prefix, the pending count drops by the number of batch events in it |
| Outbox.PublishCycleLeavesNoBatchEventPending | src/main/java/com/creditx/main/scheduler/OutboxEventPublisher.java:28-36 | after a cycle no fetched event is PENDING, ids stay positions, and the pending count falls by min(batch size, pending) |
| Outbox.OutboxEventService.SaveEvent | src/main/java/com/creditx/main/service/impl/OutboxEventServiceImpl.java:24-31 | the store becomes `AppendEvent` of the old store, and the saved event is the new last one |
| Outbox.OutboxEventService.MarkAsPublished | src/main/java/com/creditx/main/service/impl/OutboxEventServiceImpl.java:45-49 | only that event changes: it becomes PUBLISHED with publishedAt = now |
| Outbox.OutboxEventService.MarkAsFailed | src/main/java/com/creditx/main/service/impl/OutboxEventServiceImpl.java:52-56 | only that event changes: it becomes FAILED, with publishedAt untouched |
| Idempotency.ProcessedEventService.MarkEventAsProcessed | src/main/java/com/creditx/main/service/impl/HoldEventServiceImpl.java:87 | the log gains (or replaces) exactly the record for that event id |
| HoldEvents.UpdateAccountBalances | src/main/java/com/creditx/main/service/impl/HoldEventServiceImpl.java:102-114 | fails with "Insufficient available balance for hold" iff available < amount; otherwise reserved grows by amount, available stays non-negative, the account total is conserved, and nothing else changes |
| HoldEvents.NegativeHoldAmountDrivesReservedNegative | src/main/java/com/creditx/main/service/impl/HoldEventServiceImpl.java:102-114 | a negative hold amount is accepted and leaves a zero reserved balance negative: the handler checks only available ≥ amount |
| HoldEvents.ReleaseFunds | src/main/java/com/creditx/main/service/impl/HoldEventServiceImpl.java:311-325 | available grows by amount; reserved never goes below zero; the total is conserved when reserved covers the amount, and reserved clamps to 0 otherwise |
| HoldEvents.ApplyHoldCreated | src/main/java/com/creditx/main/service/impl/HoldEventServiceImpl.java:69-144 | failures in order: account missing, insufficient balance, transaction missing, null hold id (before any authorized row). On success: the issuer reserves the amount, the transaction becomes AUTHORIZED with no status check, and one `transaction.authorized` row is written with aggregateId = transaction id and status AUTHORIZED |
| HoldEvents.ApplyHoldRelease | src/main/java/com/creditx/main/service/impl/HoldEventServiceImpl.java:169-194 | a missing transaction fails; a non-AUTHORIZED transaction is skipped before any account lookup; a missing account fails. Otherwise `ReleaseFunds` applies, the transaction becomes FAILED, and one `transaction.failed` row carries "Hold expired", the void reason, or "Hold voided" |
| HoldEvents.Deliver | src/main/java/com/creditx/main/service/impl/HoldEventServiceImpl.java:48-100 | a known event id or a known payload hash means nothing changes. Otherwise: a failure keeps only a FAILED record with empty hash and re-raises; a skip records SKIPPED with the hash; a success commits the unit of work and records SUCCESS with the hash |
| HoldEvents.RedeliveryIsNoOp | src/main/java/com/creditx/main/service/impl/HoldEventServiceImpl.java:53-56 | a second delivery of the same event returns normally and changes nothing, even after a failed first delivery |
| HoldEvents.RedeliveryIsIdempotent | src/main/java/com/creditx/main/service/impl/HoldEventServiceImpl.java:50-56 | n ≥ 1 deliveries of one event leave the state a single delivery leaves |
| HoldEvents.DeliverKeepsBalancesNonNegative | src/main/java/com/creditx/main/service/impl/HoldEventServiceImpl.java:104-113 | one hold event with a non-negative amount keeps every available and reserved balance ≥ 0 |
| HoldEvents.DeliverAllKeepsBalancesNonNegative | src/main/java/com/creditx/main/service/impl/HoldEventServiceImpl.java:311-325 | any sequence of hold events with non-negative amounts keeps every balance ≥ 0 |
| HoldEvents.DeliverPreservesValidity | src/main/java/com/creditx/main/service/impl/HoldEventServiceImpl.java:70-87 | rows stay filed under their ids and outbox ids stay positions |
| HoldEvents.DeliverAllKeepsEntries | src/main/java/com/creditx/main/service/impl/HoldEventServiceImpl.java:186-194 | hold events never add or change transaction entries |
| HoldEvents.HoldCreatedReauthorizesSettledTransaction | src/main/java/com/creditx/main/service/impl/HoldEventServiceImpl.java:77-81 | a fresh `hold.created` for a SUCCESS or FAILED transaction makes it AUTHORIZED again and writes another authorized row |
| HoldEvents.HoldCreatedScenario | src/main/java/com/creditx/main/service/impl/HoldEventServiceImpl.java:102-114 | 1000.00 available, hold of 250.00, ends at 750.00 available / 250.00 reserved, AUTHORIZED |
| HoldEvents.HoldExpiredClampScenario | src/main/java/com/creditx/main/service/impl/HoldEventServiceImpl.java:311-325 | reserved 100.00, expiry of 250.00: reserved clamps to 0, available +250.00, FAILED |
| HoldEvents.ReleaseOfSettledTransactionIsSkipped | src/main/java/com/creditx/main/service/impl/HoldEventServiceImpl.java:173-179 | a release for a non-AUTHORIZED transaction leaves accounts, transactions and outbox unchanged, and records SKIPPED with its payload hash |
| HoldEvents.HoldEventService.ProcessHoldCreated | src/main/java/com/creditx/main/service/impl/HoldEventServiceImpl.java:46-100 | the stores end as `Deliver` of `hold.created` says, with the same outcome; store validity is kept |
| HoldEvents.HoldEventService.ProcessHoldExpired | src/main/java/com/creditx/main/service/impl/HoldEventServiceImpl.java:146-210 | the stores end as `Deliver` of `hold.expired` says, with the same outcome |
| HoldEvents.HoldEventService.ProcessHoldVoided | src/main/java/com/creditx/main/service/impl/HoldEventServiceImpl.java:212-276 | the stores end as `Deliver` of `hold.voided` says, with the same outcome |
| HoldEvents.HoldEventService.ProcessHoldRelease | src/main/java/com/creditx/main/service/impl/HoldEventServiceImpl.java:235-275 | the shared release body matches `Deliver` for expiry and void |
| Transactions.ValidateAccounts | src/main/java/com/creditx/main/service/impl/TransactionServiceImpl.java:203-219 | passes iff the types are right, both accounts are ACTIVE and amount ≤ available (equality accepted); otherwise the first failing check in source order is reported as IllegalArgument with its own message: "Issuer account type invalid", "Merchant account type invalid", "Accounts must be ACTIVE", "Insufficient available balance" |
| Transactions.CheckHoldResponse | src/main/java/com/creditx/main/service/impl/TransactionServiceImpl.java:252-272 | accepted iff there is a body with a hold id; a failed call, an empty body or a null hold id all give "Failed to send hold request to CreditHoldServ" |
| Transactions.StatusAfterHold | src/main/java/com/creditx/main/service/impl/TransactionServiceImpl.java:97-104 | AUTHORIZED iff the hold status is AUTHORIZED, otherwise FAILED |
| Transactions.AddAvailable | src/main/java/com/creditx/main/service/impl/TransactionServiceImpl.java:285-288 | only that account's available balance moves, by delta |
| Transactions.AddReserved | src/main/java/com/creditx/main/service/impl/TransactionServiceImpl.java:291 | only that account's reserved moves, by delta, with no floor |
| Transactions.PostDoubleEntry | src/main/java/com/creditx/main/service/impl/TransactionServiceImpl.java:275-299 | the issuer's available and reserved each drop by amount and the merchant's available rises, so the issuer's other fields are kept, the pair loses amount in total (the double debit); when issuer = merchant only reserved drops; other accounts are unchanged |
| Transactions.PostCashback | src/main/java/com/creditx/main/service/impl/TransactionServiceImpl.java:140-144 | issuer credited, merchant debited with no balance check, pair total conserved; when issuer = merchant nothing changes |
| Transactions.CommitEntries | src/main/java/com/creditx/main/service/impl/TransactionServiceImpl.java:301-316 | issuer −amount then merchant +amount, both for the transaction, summing to zero |
| Transactions.CashbackEntries | src/main/java/com/creditx/main/service/impl/TransactionServiceImpl.java:146-152 | merchant −amount then issuer +amount, both for the transaction, summing to zero |
| Transactions.CreateInbound | src/main/java/com/creditx/main/service/impl/TransactionServiceImpl.java:59-112 | "Issuer account not found", then "Merchant account not found", then validation, each with nothing written; after validation a rejected hold reply fails with "Failed to send hold request to CreditHoldServ" and a reply without status with an empty runtime failure; any failure leaves the store unchanged. Valid accounts and an accepted reply with a status always succeed. On success: one INBOUND transaction with the next id, the issuer, merchant, amount and currency, its hold id, and status AUTHORIZED iff the hold is; one `transaction.initiated` row keyed by that id; the hold is requested for that id; no balance moves |
| Transactions.Commit | src/main/java/com/creditx/main/service/impl/TransactionServiceImpl.java:161-201 | failures in order: transaction not found, not AUTHORIZED, hold id mismatch, issuer account not found, merchant account not found, then IllegalState "Transaction amount must be positive: …", each changing nothing. An AUTHORIZED transaction with the matching hold id, both accounts and a positive amount always commits; a commit applies `PostDoubleEntry`, appends `CommitEntries`, sets SUCCESS, writes one `transaction.posted` row and answers "Transaction committed successfully" |
| Transactions.Cashback | src/main/java/com/creditx/main/service/impl/TransactionServiceImpl.java:114-159 | account lookups, then "Accounts must be ACTIVE", then "Amount must be positive", with no type check. Both accounts present and ACTIVE with a positive amount always succeed. On success: one CASHBACK/SUCCESS transaction, `PostCashback`, `CashbackEntries` and one `transaction.posted` row |
| Transactions.AppendPairKeepsBalanced | src/main/java/com/creditx/main/service/impl/TransactionServiceImpl.java:313-315 | appending a zero-sum pair for one transaction keeps every transaction's entries summing to zero |
| Transactions.CommitKeepsEntriesBalanced | src/main/java/com/creditx/main/service/impl/TransactionServiceImpl.java:297-316 | conservation: after a commit, every transaction's entries still sum to zero |
| Transactions.CashbackKeepsEntriesBalanced | src/main/java/com/creditx/main/service/impl/TransactionServiceImpl.java:146-152 | conservation for cashback postings |
| Transactions.CreateInboundPreservesValidity | src/main/java/com/creditx/main/service/impl/TransactionServiceImpl.java:76-80 | the new transaction id is fresh and rows stay filed under their ids |
| Transactions.CommitPreservesValidity | src/main/java/com/creditx/main/service/impl/TransactionServiceImpl.java:189-197 | store validity survives a commit |
| Transactions.CashbackPreservesValidity | src/main/java/com/creditx/main/service/impl/TransactionServiceImpl.java:133-137 | store validity survives a cashback |
| Transactions.CreateInboundWritesOneInitiatedRow | src/main/java/com/creditx/main/service/impl/TransactionServiceImpl.java:221-231 | outbox atomicity: a success adds exactly one transaction, which is new, and exactly one `transaction.initiated` row whose aggregate id is that transaction; accounts are untouched |
| Transactions.TransactionService.CreateInboundTransaction | src/main/java/com/creditx/main/service/impl/TransactionServiceImpl.java:59-112 | the tables end as `CreateInbound` says, with the same response, including rollback after a failed hold call |
| Transactions.TransactionService.PerformDoubleEntryPosting | src/main/java/com/creditx/main/service/impl/TransactionServiceImpl.java:275-316 | a non-positive amount fails with IllegalState and changes nothing; otherwise accounts become `PostDoubleEntry` and the entries gain `CommitEntries` |
| Transactions.TransactionService.CommitTransaction | src/main/java/com/creditx/main/service/impl/TransactionServiceImpl.java:161-201 | the tables end as `Commit` says, with the same response |
| Transactions.TransactionService.CreateCashbackTransaction | src/main/java/com/creditx/main/service/impl/TransactionServiceImpl.java:114-159 | the tables end as `Cashback` says, with the same response |
| Publishing.MessageOf | src/main/java/com/creditx/main/scheduler/OutboxEventPublishingScheduler.java:33 | the key reads back as the aggregate id, and the payload is the stored one |
| Publishing.Messages | src/main/java/com/creditx/main/scheduler/OutboxEventPublisher.java:30 | one message per event, in order |
| Publishing.AuthorizedEvents | src/main/java/com/creditx/main/scheduler/OutboxEventPublishingScheduler.java:32 | holds exactly the `transaction.authorized` events of the batch, in batch order: the last event is kept at the end iff it is authorized |
| Publishing.SchedulerCycleEffect | src/main/java/com/creditx/main/scheduler/OutboxEventPublishingScheduler.java:28-39 | in the batch, a non-authorized event becomes PUBLISHED unsent, and an authorized one is PUBLISHED iff its send succeeds, otherwise FAILED; outside the batch nothing changes |
| Publishing.PublisherCycleEffect | src/main/java/com/creditx/main/scheduler/OutboxEventPublisher.java:28-35 | in the batch, an event is PUBLISHED iff its send succeeds, otherwise FAILED; outside the batch nothing changes |
| Publishing.OutboxEventPublishingScheduler.PublishPendingEvents | src/main/java/com/creditx/main/scheduler/OutboxEventPublishingScheduler.java:25-40 | the outbox becomes `MarkAll` of the fetched batch under the scheduler's decision, and the messages sent are exactly those of the authorized batch events, in order |
| Publishing.OutboxEventPublisher.PublishPendingEvents | src/main/java/com/creditx/main/scheduler/OutboxEventPublisher.java:25-36 | the outbox becomes `MarkAll` of the fetched batch under the send outcome, and every fetched event is sent, in order |
| Scenarios.CommitAfterHoldDebitsIssuerTwice | src/main/java/com/creditx/main/service/impl/TransactionServiceImpl.java:284-291 | hold 250.00 on 1000.00, then commit, gives issuer 500.00 available / 0 reserved and merchant 750.00, with the transaction's entries summing as before |
| Scenarios.CommitCanDriveAvailableNegative | src/main/java/com/creditx/main/service/impl/TransactionServiceImpl.java:284-291 | holding the whole available balance and committing leaves the issuer at −amount |

## Left out

- JSON serialisation is not modelled. Payloads are records, so the serialisation-failure paths (`JsonProcessingException`) cannot occur.
- Null amounts, null ids and null request fields are not modelled. The only nulls modelled are the ones the code checks: the hold id of an event, and the hold reply's body, hold id and status.
- A null hold status in the hold reply dereferences null. It is modelled as a Runtime failure with an empty message, which rolls back like the other failures.
- `createdAt`, the event timestamps and `expiresAt` are carried or dropped without use. `publishedAt` is a `nat` instant, the same for every event of one publishing cycle.
- Transport details are not modelled: the hold service's URL and HTTP call, the Kafka and stream clients, the listener, tracing and the controller.
- Row locking, optimistic locking and concurrent handlers are not modelled. Every call runs alone.
- An identity value taken by a rolled-back unit of work is returned to the sequence. A database sequence would not reuse it.
- `ProcessedEventService` and `EventIdGenerator` are not part of this model. They are modelled from their use:
  - The event id is (type, transaction id).
  - The payload hash is the event itself, so hashes never collide.
  - A FAILED record outlives the rollback of its unit of work.
- The batch size is a `nat`. The negative limit that `Stream.limit` rejects is not modelled.
- Hold statuses other than AUTHORIZED are carried by name. A status named "AUTHORIZED" other than the enum constant is not considered.
- Outbox.MarkAll: its own contract states only that the store's size is kept. The lemmas `Outbox.PublishCycleEffect` and `Outbox.PublishCycleLeavesNoBatchEventPending` state what a cycle does.
- HoldEvents.DeliverKeepsBalancesNonNegative: it and `HoldEvents.DeliverAllKeepsBalancesNonNegative` assume non-negative event amounts. `HoldEventServiceImpl` never checks the sign of a hold amount. A negative `hold.created` amount passes the balance check and drives reserved below zero, so the property holds only for the amounts a hold service would send; `HoldEvents.NegativeHoldAmountDrivesReservedNegative` shows the case.
- Outbox.FetchPending: it takes the store order to be insertion order. `findAll()` declares no order; the model assumes the repository returns rows by id.
- The order of effects inside one unit of work (transaction saved, then initiated row, then hold request) is shown only by the hold request carrying the new transaction's id. A pure specification cannot observe the order of the writes.
