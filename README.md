# Payment gateway core — a Dafny model

This project models the decision and bookkeeping core of a payment-intermediation gateway
with two upstream payment processors, a cheaper *default* and a costlier *fallback*:

- **Dispatch** (`PaymentService`): each payment is offered to the default processor, then the
  fallback, skipping a processor whose cached health flag says it is down. A 2xx reply whose
  ledger write succeeds settles the payment. Anything else sends the unchanged payment back
  onto the retry queue.
- **Ledger** (`TimeSeries`, `RedisConfig`, `PaymentService`): a settled payment adds
  `trunc(amount*100)` cents to `payments:amount:ts:<processor>` and 1 to
  `payments:count:ts:<processor>`. Both are RedisTimeSeries series with duplicate policy SUM.
  The summary turns those range sums back into a count and an exact scale-2 amount.
- **Health cache** (`Health`): two fail-closed flags per instance. A probe cycle writes
  `"1"`/`"0"` to `health:status:<processor>` and publishes `updated`. Each instance re-reads
  both keys when notified.
- **Health checker** (`HealthChecker`): a second scheduled probe that stores a
  `ProcessorHealthStatus` under `health:<processor>`. On any exception it stores the sentinel
  `(failing, 9999)`.
- **Retry consumer** (`Consumer`): while at least one processor is up, it pops up to 70
  payments from the right end of the queue (the oldest, since payments are pushed on the left)
  and dispatches each one.
- **Load balancer** (`LoadBalancer`): a round-robin selector over `api1`/`api2`, driven by a
  wrapping unsigned 64-bit counter, plus the router for `POST /payments` and
  `GET /payments-summary`.

The shared Redis instance is the class `Store.SharedStore`. It has one field per keyspace the
core touches: strings, stored health statuses, time series, the processing queue, and
published messages. SET, MGET, LPUSH, RPOP with a count, PUBLISH, TS.CREATE and one sample of
TS.MADD are its methods, and EXISTS is its predicate `Exists`. The read-only TS.RANGE queries of
the summary script are the function `PaymentService.SummaryScript`. The two Lua scripts are methods
built from these primitives: create-if-absent is `RedisConfig.CreateTimeSeriesIfNotExists`, and
the persist script is `PaymentService.PaymentService.PersistSuccessfulPaymentReactive`.

Things outside the model become parameters:
- HTTP replies: a status code, or a transport failure or timeout.
- Whether a ledger write failed.
- Health probe bodies.
- Clock readings (`requestedAt`).
- Whether the body of an incoming request could be read.

The data carriers (`PaymentReceived`, `QueuedPayment`, `PaymentSent`,
`ProcessorHealthStatus`) are classes whose constructors and setters update fields in place.
`BigDecimal` amounts are `Decimal(unscaled, scale)`.

Where the repository's design description and its code disagree, the model follows the code:
- The fallback is not gated behind a retry-count threshold. It is tried whenever it is up
  and the default did not succeed.
- A requeued payment keeps `retries` unchanged. Nothing increments it.
- A 4xx reply is not treated as accepted. Like a 5xx or an exception, the payment is requeued.

## Model

| member | source | states |
|---|---|---|
| Model.PaymentReceived.constructor | pagamentos/src/main/java/br/com/rinha/pagamentos/model/PaymentReceived.java:10-13 | the first argument becomes `amount` and the second `correlationId` |
| Model.PaymentReceived.SetCorrelationId | pagamentos/src/main/java/br/com/rinha/pagamentos/model/PaymentReceived.java:19-21 | sets `correlationId`; `amount` unchanged |
| Model.PaymentReceived.SetAmount | pagamentos/src/main/java/br/com/rinha/pagamentos/model/PaymentReceived.java:27-29 | sets `amount`; `correlationId` unchanged |
| Model.QueuedPayment.constructor | pagamentos/src/main/java/br/com/rinha/pagamentos/model/QueuedPayment.java:11-15 | copies `correlationId` and `amount` from the received payment unchanged; `retries == 0` |
| Model.QueuedPayment.Restore | pagamentos/src/main/java/br/com/rinha/pagamentos/consumer/RetryQueueConsumer.java:55 | a payment read back from the queue has exactly the stored id, amount and retries |
| Model.QueuedPayment.Snapshot | pagamentos/src/main/java/br/com/rinha/pagamentos/model/QueuedPayment.java:7-9 | the value stored on the queue holds the object's current id, amount and retries |
| Model.QueuedPayment.SetCorrelationId | pagamentos/src/main/java/br/com/rinha/pagamentos/model/QueuedPayment.java:21-23 | sets `correlationId` only; the other two fields unchanged |
| Model.QueuedPayment.SetAmount | pagamentos/src/main/java/br/com/rinha/pagamentos/model/QueuedPayment.java:29-31 | sets `amount` only |
| Model.QueuedPayment.SetRetries | pagamentos/src/main/java/br/com/rinha/pagamentos/model/QueuedPayment.java:37-39 | sets `retries` (an `int`) only |
| Model.PaymentSent.constructor | pagamentos/src/main/java/br/com/rinha/pagamentos/model/PaymentSent.java:12-16 | copies `amount` and `correlationId` from the queued payment; `requestedAt` is the given clock reading; no retries field |
| Model.PaymentSent.SetCorrelationId | pagamentos/src/main/java/br/com/rinha/pagamentos/model/PaymentSent.java:22-24 | sets `correlationId` only |
| Model.PaymentSent.SetAmount | pagamentos/src/main/java/br/com/rinha/pagamentos/model/PaymentSent.java:30-32 | sets `amount` only |
| Model.PaymentSent.SetRequestedAt | pagamentos/src/main/java/br/com/rinha/pagamentos/model/PaymentSent.java:38-40 | sets `requestedAt` only |
| Model.ProcessorHealthStatus.constructor | src/main/java/br/com/rinha/pagamentos/model/ProcessorHealthStatus.java:7-8 | the no-argument constructor gives `failing == false` and `responseTimeMillis == 0` |
| Model.ProcessorHealthStatus.Of | src/main/java/br/com/rinha/pagamentos/model/ProcessorHealthStatus.java:10-13 | stores both values as given |
| Model.ProcessorHealthStatus.Snapshot | src/main/java/br/com/rinha/pagamentos/model/ProcessorHealthStatus.java:4-5 | the stored value holds the object's current `failing` and `responseTimeMillis` |
| Model.ProcessorHealthStatus.SetFailing | src/main/java/br/com/rinha/pagamentos/model/ProcessorHealthStatus.java:23-25 | sets `failing` only |
| Model.ProcessorHealthStatus.SetResponseTimeMillis | src/main/java/br/com/rinha/pagamentos/model/ProcessorHealthStatus.java:27-29 | sets `responseTimeMillis` only |
| Numeric.WrapToLong | pagamentos/src/main/java/br/com/rinha/pagamentos/service/PaymentService.java:140 | narrowing to a Java `long` keeps the value modulo 2^64, and keeps it exactly when it fits |
| Numeric.TruncDiv | pagamentos/src/main/java/br/com/rinha/pagamentos/service/PaymentService.java:140 | division that truncates toward zero: the quotient is the integer between 0 and a/b nearest a/b |
| Store.PopRight | pagamentos/src/main/java/br/com/rinha/pagamentos/consumer/RetryQueueConsumer.java:55 | RPOP with a count takes `min(count, length)` elements, and remainder + reversed batch is the old list |
| Store.SharedStore.Set | pagamentos/src/main/java/br/com/rinha/pagamentos/health/ProcessorHealthMonitor.java:76-77 | SET overwrites one string key; nothing else changes |
| Store.SharedStore.MultiGet | pagamentos/src/main/java/br/com/rinha/pagamentos/health/ProcessorHealthMonitor.java:101 | MGET returns, per key and in key order, the stored string or none for a missing key |
| Store.SharedStore.SetStatus | pagamentos/src/main/java/br/com/rinha/pagamentos/scheduler/ProcessorHealthChecker.java:46 | SET of a serialized status overwrites one key |
| Store.SharedStore.LeftPush | pagamentos/src/main/java/br/com/rinha/pagamentos/service/PaymentService.java:110 | LPUSH puts the entry at the left end; the rest of the list is unchanged |
| Store.SharedStore.RightPop | pagamentos/src/main/java/br/com/rinha/pagamentos/consumer/RetryQueueConsumer.java:55 | returns the batch and leaves the remainder, as `PopRight` describes |
| Store.SharedStore.Publish | pagamentos/src/main/java/br/com/rinha/pagamentos/health/ProcessorHealthMonitor.java:80 | appends one message on the channel |
| Store.SharedStore.CreateSeries | pagamentos/src/main/java/br/com/rinha/pagamentos/config/RedisConfig.java:87 | TS.CREATE makes an empty series with the given duplicate policy and labels |
| Store.SharedStore.AddSample | pagamentos/src/main/java/br/com/rinha/pagamentos/service/PaymentService.java:33 | one sample of TS.MADD changes exactly that key's series, and only when the key holds a series |
| Store.AddIfPresent | pagamentos/src/main/java/br/com/rinha/pagamentos/service/PaymentService.java:33 | keys are kept, every other series is unchanged, and the target series receives the sample |
| Store.PushedAllIsReverse | pagamentos/src/main/java/br/com/rinha/pagamentos/service/PaymentService.java:110 | left-pushing a history of payments one by one gives that history reversed |
| Store.DrainIsFifo | pagamentos/src/main/java/br/com/rinha/pagamentos/consumer/RetryQueueConsumer.java:55 | right-popping `k` entries from left-pushed payments returns the `k` oldest, oldest first, and leaves the rest as if only they had been pushed |
| TimeSeries.InsertOrdered | pagamentos/src/main/java/br/com/rinha/pagamentos/config/RedisConfig.java:87 | adding a sample keeps samples strictly ordered by timestamp, one per timestamp |
| TimeSeries.SumPolicyAddsValue | pagamentos/src/main/java/br/com/rinha/pagamentos/config/RedisConfig.java:87 | under DUPLICATE_POLICY SUM, adding a sample raises every range sum that covers its timestamp by its value, even when the timestamp is already taken |
| TimeSeries.ReplaySum | pagamentos/src/main/java/br/com/rinha/pagamentos/config/RedisConfig.java:87 | under SUM, the range sum after any sequence of additions is the old range sum plus the in-range sum of everything added, duplicates included |
| TimeSeries.BlockPolicyDropsDuplicate | pagamentos/src/main/java/br/com/rinha/pagamentos/config/RedisConfig.java:87 | under BLOCK a second sample at the same timestamp is dropped, so SUM is what keeps concurrent settlements from being lost |
| TimeSeries.FirstBucketSum | pagamentos/src/main/java/br/com/rinha/pagamentos/service/PaymentService.java:41-42 | TS.RANGE with sum aggregation gives an empty reply exactly when no sample lies in the range |
| TimeSeries.AggregateIsRangeSum | pagamentos/src/main/java/br/com/rinha/pagamentos/service/PaymentService.java:39-42 | while all timestamps lie in the first 9999999999999 ms bucket, the first aggregated row is the whole inclusive range sum |
| TimeSeries.EmptyRangeSumsToZero | pagamentos/src/main/java/br/com/rinha/pagamentos/service/PaymentService.java:40 | an empty range sums to 0, the script's default slot value |
| RedisConfig.Labels | pagamentos/src/main/java/br/com/rinha/pagamentos/config/RedisConfig.java:59-62 | each series is labelled with exactly `type` and `processor` |
| RedisConfig.Initialized | pagamentos/src/main/java/br/com/rinha/pagamentos/config/RedisConfig.java:55-66 | the initializer's four create-if-absent calls in order. It carries no contract of its own; `InitializedSeries` and `InitializeIdempotent` state its result |
| Store.SharedStore.Exists | pagamentos/src/main/java/br/com/rinha/pagamentos/config/RedisConfig.java:86 | EXISTS: a key exists when some keyspace holds it; an empty list does not exist. It carries no contract of its own |
| RedisConfig.CreatedIfAbsent | pagamentos/src/main/java/br/com/rinha/pagamentos/config/RedisConfig.java:85-90 | an existing key is left alone; a missing key gets an empty SUM series with the labels; other keys unchanged |
| RedisConfig.CreateTimeSeriesIfNotExists | pagamentos/src/main/java/br/com/rinha/pagamentos/config/RedisConfig.java:93-104 | the script creates the series only when EXISTS is 0, and replies OK either way |
| RedisConfig.InitializeTimeSeries | pagamentos/src/main/java/br/com/rinha/pagamentos/config/RedisConfig.java:55-66 | the four conditional creates run in order, each depending on that key's existence beforehand |
| RedisConfig.LedgerPresence | pagamentos/src/main/java/br/com/rinha/pagamentos/config/RedisConfig.java:86 | one EXISTS answer per ledger key, in order |
| RedisConfig.InitializedSeries | pagamentos/src/main/java/br/com/rinha/pagamentos/config/RedisConfig.java:59-62 | every ledger key that did not exist beforehand now holds an empty SUM series with its amount/count × default/fallback labels; every existing series is untouched; no other key is created. A ledger key that already existed as a string, a status or the list gets no series |
| RedisConfig.InitializeIdempotent | pagamentos/src/main/java/br/com/rinha/pagamentos/config/RedisConfig.java:88-89 | initializing a store that already has all four series changes nothing |
| RedisConfig.LedgerKeysDistinct | pagamentos/src/main/java/br/com/rinha/pagamentos/config/RedisConfig.java:59-62 | the four ledger keys are pairwise different |
| Health.SyncedFlags | pagamentos/src/main/java/br/com/rinha/pagamentos/health/ProcessorHealthMonitor.java:102-121 | each flag is true iff the MGET reply has exactly two values and that slot is exactly `"1"`; a missing key, no reply, a wrong length or an error all give false |
| Health.ReadStatuses | pagamentos/src/main/java/br/com/rinha/pagamentos/health/ProcessorHealthMonitor.java:101 | MGET of the two status keys yields a two-slot reply holding the stored default status, then the stored fallback status (none for a missing key) |
| Health.ProbeAvailability | pagamentos/src/main/java/br/com/rinha/pagamentos/health/ProcessorHealthMonitor.java:125-132 | a probe says available iff it returned a body with `failing == false`; an error says unavailable; an empty body gives no value |
| Health.StatusValue | pagamentos/src/main/java/br/com/rinha/pagamentos/health/ProcessorHealthMonitor.java:76-77 | the stored string is `"1"` iff up and `"0"` iff down |
| Health.ApplyCycle | pagamentos/src/main/java/br/com/rinha/pagamentos/health/ProcessorHealthMonitor.java:76-90 | a skipped cycle writes nothing; otherwise exactly the two status keys take the cycle's values and every other string is unchanged |
| Health.CycleOutcome | pagamentos/src/main/java/br/com/rinha/pagamentos/health/ProcessorHealthMonitor.java:65-92 | the cycle writes nothing iff a probe body was empty; after a fault both values are `"0"`; otherwise each is `"1"` iff its probe reported not failing |
| Health.ProcessorHealthMonitor.constructor | pagamentos/src/main/java/br/com/rinha/pagamentos/health/ProcessorHealthMonitor.java:36-37 | a new monitor reports both processors unavailable |
| Health.ProcessorHealthMonitor.PerformHealthCheckAndNotify | pagamentos/src/main/java/br/com/rinha/pagamentos/health/ProcessorHealthMonitor.java:65-92 | the two status keys get the cycle's values and `updated` is published, also after a fault; a skipped cycle writes and publishes nothing |
| Health.ProcessorHealthMonitor.SyncState | pagamentos/src/main/java/br/com/rinha/pagamentos/health/ProcessorHealthMonitor.java:102-121 | both flags are overwritten with `SyncedFlags` of the reply |
| Health.ProcessorHealthMonitor.SyncStateFromStore | pagamentos/src/main/java/br/com/rinha/pagamentos/health/ProcessorHealthMonitor.java:100-123 | the flags come from the stored status strings, or are both false when the read fails |
| Health.ProcessorHealthMonitor.OnMessage | pagamentos/src/main/java/br/com/rinha/pagamentos/health/ProcessorHealthMonitor.java:95-98 | a notification triggers the same sync |
| Health.ProcessorHealthMonitor.IsDefaultProcessorAvailable | pagamentos/src/main/java/br/com/rinha/pagamentos/health/ProcessorHealthMonitor.java:138-140 | returns the cached default flag and changes nothing |
| Health.ProcessorHealthMonitor.IsFallbackProcessorAvailable | pagamentos/src/main/java/br/com/rinha/pagamentos/health/ProcessorHealthMonitor.java:142-144 | returns the cached fallback flag and changes nothing |
| Health.CycleThenSync | pagamentos/src/main/java/br/com/rinha/pagamentos/health/ProcessorHealthMonitor.java:76-80 | a sync after a fault-free cycle gives each flag its probe's availability; after a faulty cycle both flags are down; a skipped cycle leaves the answer as before |
| Health.CycleIdempotent | pagamentos/src/main/java/br/com/rinha/pagamentos/health/ProcessorHealthMonitor.java:76-77 | running a cycle twice with the same probe results leaves the same stored values as once |
| HealthChecker.CheckedStatus | pagamentos/src/main/java/br/com/rinha/pagamentos/scheduler/ProcessorHealthChecker.java:41-49 | a reply with a body holding both fields gives `(failing, minResponseTime)` from the body; anything else gives `(true, 9999)` |
| HealthChecker.ProcessorHealthChecker.constructor | pagamentos/src/main/java/br/com/rinha/pagamentos/scheduler/ProcessorHealthChecker.java:28-30 | the checker keeps the store it is given |
| HealthChecker.ProcessorHealthChecker.CheckProcessorAsync | pagamentos/src/main/java/br/com/rinha/pagamentos/scheduler/ProcessorHealthChecker.java:40-51 | exactly one write, to `health:<processorKey>`, of the checked status, when the store write succeeds; it always completes |
| HealthChecker.ProcessorHealthChecker.CheckProcessors | pagamentos/src/main/java/br/com/rinha/pagamentos/scheduler/ProcessorHealthChecker.java:34-37 | checks `default` then `fallback`, one write each |
| HealthChecker.HealthyStatusNeedsHealthyReply | pagamentos/src/main/java/br/com/rinha/pagamentos/scheduler/ProcessorHealthChecker.java:44-48 | a stored non-failing status only comes from a reply whose body said `failing: false`, and then carries its `minResponseTime` |
| HealthChecker.ChecksWriteDistinctKeys | pagamentos/src/main/java/br/com/rinha/pagamentos/scheduler/ProcessorHealthChecker.java:35-36 | the two checks write different keys, so neither overwrites the other |
| PaymentService.SendResult | pagamentos/src/main/java/br/com/rinha/pagamentos/service/PaymentService.java:118-133 | an attempt yields true iff the reply is 2xx and the ledger write succeeds; false iff the status is neither 2xx nor an error; otherwise no value |
| PaymentService.OnlyTwoHundredsSucceed | pagamentos/src/main/java/br/com/rinha/pagamentos/service/PaymentService.java:122-132 | an attempt succeeds iff the status is in 200..299 and the write succeeded; error statuses, other statuses, exceptions and failed writes never do |
| PaymentService.AttemptOrder | pagamentos/src/main/java/br/com/rinha/pagamentos/service/PaymentService.java:87-106 | a processor is in the order iff it is up; default comes before fallback; no repeats |
| PaymentService.Dispatch | pagamentos/src/main/java/br/com/rinha/pagamentos/service/PaymentService.java:87-106 | no processor is called iff both are down; a payment is settled only by a processor whose attempt succeeded |
| PaymentService.RunAttempts | pagamentos/src/main/java/br/com/rinha/pagamentos/service/PaymentService.java:88-92 | the calls made are a prefix of the order; every call but the last failed; settled by the last call iff it succeeded; requeued iff every processor in the order was called and failed |
| PaymentService.DispatchPolicy | pagamentos/src/main/java/br/com/rinha/pagamentos/service/PaymentService.java:82-107 | default is called iff up; fallback iff up and default did not settle; settled by default iff up and it succeeds; by fallback iff up, default did not settle and it succeeds; requeued iff neither settled; no call at all when both are down |
| PaymentService.Hundredfold | pagamentos/src/main/java/br/com/rinha/pagamentos/service/PaymentService.java:140 | `amount * 100` truncated toward zero |
| PaymentService.Cents | pagamentos/src/main/java/br/com/rinha/pagamentos/service/PaymentService.java:140 | the cents written is the truncated hundredfold, narrowed to a long (exact whenever it fits) |
| PaymentService.CentsExactForTwoDecimals | pagamentos/src/main/java/br/com/rinha/pagamentos/service/PaymentService.java:140 | an amount with at most two decimals is recorded to the exact cent |
| PaymentService.AmountOfCents | pagamentos/src/main/java/br/com/rinha/pagamentos/service/PaymentService.java:173 | cents/100 at scale 2, and multiplying it back by 100 returns the cents, for every long |
| PaymentService.CentsRoundTrip | pagamentos/src/main/java/br/com/rinha/pagamentos/service/PaymentService.java:177 | the hundredfold of `cents/100` at scale 2 is `cents` |
| PaymentService.TruncDivExact | pagamentos/src/main/java/br/com/rinha/pagamentos/service/PaymentService.java:140 | truncating division of an exact multiple returns the multiplier, for either sign |
| PaymentService.Settle | pagamentos/src/main/java/br/com/rinha/pagamentos/service/PaymentService.java:82-107 | exactly one outcome: the queue gains the unchanged payment at its left end iff the dispatch requeued, leaving the series unchanged; when it settled with processor `p`, the queue is untouched and the series are exactly one ledger write for `p` of the payment's cents at `requestedAt` |
| PaymentService.Persisted | pagamentos/src/main/java/br/com/rinha/pagamentos/service/PaymentService.java:135-146 | the persist script's effect: the processor's amount series gains the cents and its count series gains 1, both at `requestedAt`; no key is added and every other series is unchanged |
| PaymentService.PersistAddsToLedger | pagamentos/src/main/java/br/com/rinha/pagamentos/service/PaymentService.java:135-146 | on SUM series, a settlement adds its cents to the processor's amount range sums and 1 to its count range sums, for every range holding `requestedAt`; all other series are unchanged |
| PaymentService.LedgerKeysDiffer | pagamentos/src/main/java/br/com/rinha/pagamentos/service/PaymentService.java:136-137 | amount and count keys differ, and so do the keys of the two processors |
| PaymentService.KeysAgreeWithInitializer | pagamentos/src/main/java/br/com/rinha/pagamentos/service/PaymentService.java:154 | the keys persist writes to and the summary reads are exactly the four the initializer creates |
| PaymentService.StartArg | pagamentos/src/main/java/br/com/rinha/pagamentos/service/PaymentService.java:155 | an absent `from` becomes `-`, and a given one is used as is |
| PaymentService.EndArg | pagamentos/src/main/java/br/com/rinha/pagamentos/service/PaymentService.java:156 | an absent `to` becomes `+`, and a given one is used as is |
| PaymentService.Slot | pagamentos/src/main/java/br/com/rinha/pagamentos/service/PaymentService.java:41-42 | a slot is 0 when the range holds no sample, the script's default; while timestamps stay in the first bucket it is the range sum |
| PaymentService.SummaryScript | pagamentos/src/main/java/br/com/rinha/pagamentos/service/PaymentService.java:38-49 | the reply is [defaultCount, defaultCents, fallbackCount, fallbackCents], read from KEYS[2], KEYS[1], KEYS[4], KEYS[3]; it fails iff some key holds no series |
| PaymentService.SummaryOf | pagamentos/src/main/java/br/com/rinha/pagamentos/service/PaymentService.java:160-179 | a reply whose length is not 4 gives zero counts and amounts; a 4-slot reply gives counts and cents from slots 0–3, failing iff a slot is not a long; amounts have scale 2 |
| PaymentService.SummaryReportsRangeSums | pagamentos/src/main/java/br/com/rinha/pagamentos/service/PaymentService.java:149-158 | while timestamps lie in the first bucket, the script reports each processor's count and cents as the range sums of its two series |
| PaymentService.SummaryAmountsExact | pagamentos/src/main/java/br/com/rinha/pagamentos/service/PaymentService.java:171-178 | the reported amounts are exactly `cents` at scale 2, and their hundredfold is the cents again |
| PaymentService.PaymentService.constructor | pagamentos/src/main/java/br/com/rinha/pagamentos/service/PaymentService.java:64-75 | the service keeps the store and monitor it is given |
| PaymentService.PaymentService.ProcessPayment | pagamentos/src/main/java/br/com/rinha/pagamentos/service/PaymentService.java:82-107 | the queue and series afterwards are `Settle` of the old ones under the cached flags, so the source's if-chain meets the dispatch policy |
| PaymentService.PaymentService.QueuePayment | pagamentos/src/main/java/br/com/rinha/pagamentos/service/PaymentService.java:109-111 | the payment is pushed as it is, with id, amount and retries unchanged |
| PaymentService.PaymentService.Requeue | pagamentos/src/main/java/br/com/rinha/pagamentos/service/PaymentService.java:113-116 | pushes the payment and yields false |
| PaymentService.PaymentService.TrySendAndPersist | pagamentos/src/main/java/br/com/rinha/pagamentos/service/PaymentService.java:118-133 | yields `SendResult` of the attempt; the ledger is written iff it yields true |
| PaymentService.PaymentService.PersistSuccessfulPaymentReactive | pagamentos/src/main/java/br/com/rinha/pagamentos/service/PaymentService.java:135-147 | adds the payment's cents to its processor's amount series and 1 to its count series, both at `requestedAt` |
| PaymentService.PaymentService.GetPaymentsSummary | pagamentos/src/main/java/br/com/rinha/pagamentos/service/PaymentService.java:149-180 | the local counters give `SummaryOf` of the script's reply, and the call fails when the script fails |
| Consumer.DrainBatch | pagamentos/src/main/java/br/com/rinha/pagamentos/consumer/RetryQueueConsumer.java:62-64 | the effect of dispatching a popped batch: one `Settle` per payment, in pop order. It carries no contract of its own; `DrainQueue` states its queue and `ConsumeStep` is proved equal to it |
| Consumer.Step | pagamentos/src/main/java/br/com/rinha/pagamentos/consumer/RetryQueueConsumer.java:49-67 | one iteration of the consume loop: the availability gate, RPOP of 70, then `DrainBatch`. It carries no contract of its own; `IdleSteps`, `StepIsFifo` and `SuccessfulStepPopsBatch` state its properties |
| Consumer.Rounds | pagamentos/src/main/java/br/com/rinha/pagamentos/consumer/RetryQueueConsumer.java:61 | `n` repetitions of `Step`, as the `repeat()` loop runs them. It carries no contract of its own; `SuccessfulRoundsDrain` states its draining |
| Consumer.RequeuedOf | pagamentos/src/main/java/br/com/rinha/pagamentos/consumer/RetryQueueConsumer.java:64 | the payments a batch sends back are items of the batch, at most one push per item (a sub-multiset of the batch) |
| Consumer.RetryQueueConsumer.constructor | pagamentos/src/main/java/br/com/rinha/pagamentos/consumer/RetryQueueConsumer.java:33-40 | the consumer keeps the store, service and monitor it is given |
| Consumer.RetryQueueConsumer.ConsumeStep | pagamentos/src/main/java/br/com/rinha/pagamentos/consumer/RetryQueueConsumer.java:49-67 | with both processors down nothing is popped or changed; otherwise the rightmost `min(70, length)` payments are popped and each is dispatched once, in pop order |
| Consumer.PopBatchBound | pagamentos/src/main/java/br/com/rinha/pagamentos/consumer/RetryQueueConsumer.java:22 | a batch holds at most 70 payments, and exactly 70 when at least that many are queued; unpopped payments stay in order and unchanged |
| Consumer.PopBatchOrder | pagamentos/src/main/java/br/com/rinha/pagamentos/consumer/RetryQueueConsumer.java:55 | the batch is the rightmost payments, rightmost first |
| Consumer.PopBatchKeepsAll | pagamentos/src/main/java/br/com/rinha/pagamentos/consumer/RetryQueueConsumer.java:55 | popping loses and duplicates nothing: batch plus remainder is the old queue, as a multiset |
| Consumer.StepIsFifo | pagamentos/src/main/java/br/com/rinha/pagamentos/consumer/RetryQueueConsumer.java:55 | payments pushed on the left leave the queue oldest first |
| Consumer.DrainQueue | pagamentos/src/main/java/br/com/rinha/pagamentos/consumer/RetryQueueConsumer.java:64 | draining a batch keeps the rest of the queue in place; the only additions are the batch's requeued payments, in front |
| Consumer.NothingRequeuedWhenAllSucceed | pagamentos/src/main/java/br/com/rinha/pagamentos/consumer/RetryQueueConsumer.java:64 | when the default processor is up and accepts every payment of a batch, nothing is requeued |
| Consumer.IdleSteps | pagamentos/src/main/java/br/com/rinha/pagamentos/consumer/RetryQueueConsumer.java:56-58 | an iteration with both processors down, or on an empty queue, changes nothing, and the loop goes round again |
| Consumer.SuccessfulRoundsDrain | pagamentos/src/main/java/br/com/rinha/pagamentos/consumer/RetryQueueConsumer.java:61 | while the default processor accepts everything, `n` iterations remove `min(70n, length)` payments |
| Consumer.SuccessfulStepPopsBatch | pagamentos/src/main/java/br/com/rinha/pagamentos/consumer/RetryQueueConsumer.java:55-64 | an iteration in which the default processor accepts every payment shortens the queue by exactly `min(70, length)` |
| Consumer.SuccessfulRoundsShrink | pagamentos/src/main/java/br/com/rinha/pagamentos/consumer/RetryQueueConsumer.java:55-67 | in a run of such iterations, every iteration shortens the queue by `min(70, length)` |
| Consumer.BacklogClosedForm | pagamentos/src/main/java/br/com/rinha/pagamentos/consumer/RetryQueueConsumer.java:22 | removing `min(70, left)` per round leaves `max(0, length - 70n)` after `n` rounds |
| Consumer.RequeueStep | pagamentos/src/main/java/br/com/rinha/pagamentos/service/PaymentService.java:82-116 | settling one payment pushes exactly that payment in front of the queue when it is requeued, and leaves the queue alone otherwise |
| LoadBalancer.Increment | load-balancer/main.go:38 | the atomic add raises the counter by 1, wrapping from 2^64 − 1 to 0 |
| LoadBalancer.BackendAt | load-balancer/main.go:39 | the selected backend is always one of the two, and is api1 iff the counter is even |
| LoadBalancer.Route | load-balancer/main.go:91-100 | payments iff `POST /payments`; summary iff `GET /payments-summary`; anything else is not found |
| LoadBalancer.Balancer.constructor | load-balancer/main.go:20 | the counter starts at 0 |
| LoadBalancer.Balancer.GetNextBackend | load-balancer/main.go:37-40 | the counter is incremented first and the new value selects the backend |
| LoadBalancer.Balancer.HandlePayments | load-balancer/main.go:42-73 | 204, with a backend selected, whenever the body was read, whatever the backend does; 500 with no backend selected when it cannot be read |
| LoadBalancer.Balancer.HandleSummary | load-balancer/main.go:75-86 | selects the next backend and proxies the request to it |
| LoadBalancer.Balancer.Serve | load-balancer/main.go:91-100 | each route reaches its handler; not found answers 404 and selects no backend |
| LoadBalancer.ConsecutiveSelectionsDiffer | load-balancer/main.go:39 | consecutive calls return different backends, even across the counter's wrap-around |
| LoadBalancer.SelectionPeriodTwo | load-balancer/main.go:39 | calls n and n + 2 return the same backend |
| LoadBalancer.FreshStartOrder | load-balancer/main.go:15-20 | from a fresh counter, the first call returns api2 and the second api1 |
| LoadBalancer.Iterate | load-balancer/main.go:38 | after k increments the counter is `(c + k) mod 2^64` |
| LoadBalancer.SelectionAfter | load-balancer/main.go:39 | the k-th selection after counter c is the backend at `(c + k) mod 2` |

## Left out

- HTTP transport is not modelled: `WebClient`, `RestTemplate`, JSON bodies, timeouts, and the reverse proxy in the load balancer's summary handler. Each upstream result is an input value: a status code, or a transport failure.
- Redis wire details are not modelled: serializers, Lua evaluation, connections, and the pub/sub listener container. The store is an in-memory object, and a published message becomes a notice that `OnMessage` handles.
- Concurrency is not modelled. Reactive chains, `@Async` threads, `parallel(concurrencyLevel)`, the payment-forwarding goroutine, the atomicity of the counter increment and `volatile` visibility all run sequentially here. In particular, the health flags stay fixed while a batch drains.
- The scheduling, delays and distributed lease are not modelled: `@Scheduled`, `delaySubscription` and `@SchedulerLock`. Clock readings are parameters.
- Consumer.RetryQueueConsumer.ConsumeStep: models one iteration of the endless `repeat()` loop as a method. Repetition is the pure function `Consumer.Rounds`, with a lemma about it, not a looping method.
- Failures of store commands are modelled in three places only: the sync read (`StoreFailure`), the health cycle's `fault`, and a failed persist write. Every other store command is taken to succeed. The model therefore does not capture these cases:
  - a failed LPUSH in `requeue` (PaymentService.java:109-116), which loses the payment because the error is dropped;
  - a failed SET inside the health checker's `try` (ProcessorHealthChecker.java:41-49), after which the `catch` writes the (true, 9999) sentinel as a second write;
  - failures of the monitor's recovery writes and publish after a fault (ProcessorHealthMonitor.java:83-90).
- Samples are integers here. RedisTimeSeries stores doubles, and the summary parses their text with `Long.parseLong`.
- PaymentService.SummaryOf: a slot that is not a long fails the parse. Other parse failures, such as a value printed with an exponent, are not modelled.
- `Instant.parse` of the summary bounds is not modelled. Bounds are epoch milliseconds. Timestamps are natural numbers, so instants before 1970 are not modelled.
- The script reply handling assumes the script returns a list. The source turns a null reply into an empty list, and the model does not represent a null reply.
- TimeSeries.FirstBucketSum: the aggregated reply is modelled by its first bucket only. That bucket equals the plain range sum while timestamps stay below 9999999999999 ms (the year 2286), which is what `AggregateIsRangeSum` assumes.
- Store.SharedStore.AddSample: TS.MADD on a key that holds no series changes nothing in the model. The real command reports a per-sample error. The initializer creates all four keys beforehand.
- Health.ProbeAvailability: a 2xx health reply with an empty body gives no value, so `Mono.zip` completes empty and the cycle writes and publishes nothing. This is modelled as the code behaves.
- The `health:<processor>` statuses written by the health checker are never read by the monitor or the dispatcher. They are modelled as a separate keyspace.
- HealthChecker.CheckedStatus: Jackson's `asBoolean`/`asLong` coercions of unusual JSON values are not modelled. A field is either present with its value, or absent.
- Getters of the data carriers are plain field reads on the classes.
- The controllers, the `Payment`/`PaymentRequest`/`PaymentProcessorRequest` carriers, the Spring template beans, the application bootstrap and the ShedLock configuration are wiring, and are not modelled.
- A retry threshold for the fallback, retry-count increments, a configurable 4xx policy and TTL health markers are described for the system but are absent from its code, so they are not modelled.
