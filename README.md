# payment-proxy routing and delivery engine in Dafny

This project models the core of the payment proxy: the part that decides
where a payment goes and delivers it to one of two upstream payment
processors, `default` and `fallback`. Its four parts are:

- **Circuit breaker** (`circuit_breaker.dfy`). Each processor has a record
  `{state, failures, lastFailure}` that moves through `CLOSED`, `OPEN` and
  `HALF_OPEN`. The record is stored as a hash of three string fields: the
  state name, the failure count in decimal, and the last-failure time in
  decimal or empty. `CircuitStore` is a class whose `store` field maps each
  processor to those three fields. Its methods follow the source operation by operation:
  `getCircuitState` (with lazy creation of `{CLOSED, 0, null}`),
  `setCircuitState`, `recordFailure`, `recordSuccess` and `isCircuitOpen`.
  Each is tied to a pure function: `getCircuitState` to `Current` (its lazy
  write stores `Encode(Initial)`), `setCircuitState` to `Encode`,
  `recordFailure` to `AfterFailure`, `recordSuccess` to `AfterSuccess`, and
  `isCircuitOpen` to `ReportsOpen`, `AfterOpenCheck` and `CheckedStore`. The decimal encoding is written out,
  and its round trip is proved, including the edge case where a timestamp
  of 0 is written as `""`.
- **Health-based choice** (`health_check.dfy`). `ChooseProcessor` is the
  decision table over two `{failing, minResponseTime}` snapshots.
  `FetchHealthFromProcessors` models the probe and its fixed
  "both failing, 500 ms" error default. `HealthCache` is the read-through
  cache behind `getHealth`. The cache's 5-second expiry is an `expiresAt`
  timestamp compared with the caller's clock. Two lemmas cover repeated
  calls:
  - calls made one after another while a snapshot is live never probe again;
  - calls made one after another inside one expiry window probe at most once.
- **Two-attempt delivery** (`process_payment.dfy`). `ProcessPayment`:
  1. asks the circuit of `default` whether it is open;
  2. picks the primary processor;
  3. posts to the primary, then to the other processor on a non-ok answer;
  4. records a circuit success or failure per answered attempt;
  5. inserts one ledger row on success.

  Its effects are stated against `DeliverySequence`, a pure plan of the
  attempts, circuit calls and insert. `GetPaymentsSummary` is the loop that
  fills a zeroed summary from the grouped query result. It is proved equal
  to a per-processor count and sum over the ledger rows in `[from, to]`.
- **Queue worker** (`worker.dfy`). `ProcessPaymentFromQueue` makes one
  delivery attempt after another: the processor `getHealth` chooses, then the
  other one, upserting `payment:<correlationId>` on success. The source's
  recursion on `retryCount` after a `TimeoutError` is written as a loop with
  that counter. The loop is proved against the recursive function
  `RetryFrom`. `ProcessPaymentQueueStep` is one pop-and-process step of the
  endless worker loop.

The outside world is passed in as values:

- HTTP answers are `FetchOutcome` values: ok, non-ok, or a rejection with
  an error name.
- The health probe's answer is a `Probe` value.
- `isHealthy("default")` is a boolean parameter.
- The clock is a `now` parameter in milliseconds.
- `JSON.parse` of a queue element is a function parameter.

Amounts are integers (cents). ISO-8601 timestamps are milliseconds.

Behaviour of the code worth knowing:

- **Recovery needs a truthy timestamp.** `isCircuitOpen` moves to
  `HALF_OPEN` only when `lastFailure` is truthy, so a zero timestamp keeps
  an `OPEN` circuit open.
- **A thrown fetch ends `processPayment`.** It records no circuit failure
  and tries no fallback.
- **Fixed 200 ms timeout.** Both attempts of `processPayment` use a fixed
  200 ms abort signal; the worker's fetches have no timeout signal at all.
- **The worker never re-queues.** It pops one element at a time. A payment
  both processors reject is left alone, and the only retry is the in-place
  one on `TimeoutError`.
- **`isHealthy` is not defined.** `src/process-payment.ts` imports it from
  `src/health-check.ts`, which does not define it. It is therefore an
  oracle boolean here.

## Model

| member | source | states |
|---|---|---|
| Common.Other | src/process-payment.ts:53-54 | the second attempt goes to the processor that is not the first, and `default` and `fallback` swap |
| CircuitBreaker.ParseDecimalOfNatToDecimal | src/circuit-breaker.ts:40-42 | `parseInt(_, 10)` of the decimal text `toString` writes gives the number back |
| CircuitBreaker.Encode | src/circuit-breaker.ts:52-59 | the written fields are a state name and digit strings; `lastFailure` is written as `""` exactly when it is null or 0 |
| CircuitBreaker.Decode | src/circuit-breaker.ts:36-43 | a stored record reads back with the state its name denotes, an empty `failures` read as 0, and `lastFailure` null exactly when the field is empty |
| CircuitBreaker.DecodeEncode | src/circuit-breaker.ts:36-59 | reading back what was written gives the same state and failure count, and the same `lastFailure` unless it was 0, which reads back as null; 0 and null are written alike |
| CircuitBreaker.AfterFailure | src/circuit-breaker.ts:62-73 | a failure adds exactly one to the count and stamps `now`; the result is `OPEN` iff it was `OPEN` or the new count exceeds FAILURE_THRESHOLD, otherwise the state is kept; the record invariant is preserved |
| CircuitBreaker.AfterSuccess | src/circuit-breaker.ts:75-83 | a success yields `{CLOSED, 0, null}` from any record |
| CircuitBreaker.AfterOpenCheck | src/circuit-breaker.ts:85-102 | the check changes only the state, and to `HALF_OPEN` exactly when an `OPEN` record's non-zero last failure is more than RECOVERY_TIMEOUT old |
| CircuitBreaker.FailuresCount | src/circuit-breaker.ts:62-73 | a run of n failures adds n to the count and ends with the last timestamp; more than FAILURE_THRESHOLD of them open the circuit, and a fresh circuit stays `CLOSED` while the count stays at or below it |
| CircuitBreaker.OpenUntilRecovery | src/circuit-breaker.ts:85-99 | after more than FAILURE_THRESHOLD consecutive failures, `isCircuitOpen` answers true iff RECOVERY_TIMEOUT has not elapsed since the last one (or its stamp is 0) |
| CircuitBreaker.HalfOpenFailureReopens | src/circuit-breaker.ts:68-70 | a failure in `HALF_OPEN` re-opens the circuit, since the count was never reset |
| CircuitBreaker.RecoveryHappensOnce | src/circuit-breaker.ts:88-97 | when recovery is due, the answer is false and the record becomes `HALF_OPEN`, which answers false at any later time and is not changed by further checks |
| CircuitBreaker.Current | src/circuit-breaker.ts:14-44 | the record read for a processor satisfies the record invariant, and is `{CLOSED, 0, null}` when no `state` is stored |
| CircuitBreaker.CheckedStore | src/circuit-breaker.ts:85-102 | after the check the processor has a record: unchanged when a record is present and recovery is not due; created as `{CLOSED, 0, null}` when there was none; rewritten as `HALF_OPEN` when recovery is due; the other processor's record is untouched |
| CircuitBreaker.CircuitStore.GetCircuitState | src/circuit-breaker.ts:14-44 | returns the decoded record; when no `state` is stored it returns and stores `{CLOSED, 0, null}`, otherwise it changes nothing |
| CircuitBreaker.CircuitStore.SetCircuitState | src/circuit-breaker.ts:46-60 | writes the three encoded fields of one processor and nothing else |
| CircuitBreaker.CircuitStore.RecordFailure | src/circuit-breaker.ts:62-73 | the processor's record becomes the encoding of AfterFailure of its current record; the other key is unchanged |
| CircuitBreaker.CircuitStore.RecordSuccess | src/circuit-breaker.ts:75-83 | the processor's record becomes `{CLOSED, 0, null}`; the other key is unchanged |
| CircuitBreaker.CircuitStore.IsCircuitOpen | src/circuit-breaker.ts:85-102 | answers true only for a timely `OPEN` record; the store becomes CheckedStore and the record read afterwards is AfterOpenCheck of the one before |
| HealthCheck.FetchHealthFromProcessors | src/health-check.ts:33-57 | an unreachable processor or two non-ok answers give both failing at 500 ms; when at least one answer is ok and both bodies parse, the result is exactly the two parsed bodies; any other outcome is the error default |
| HealthCheck.ChooseProcessor | src/health-check.ts:73-94 | `default` when both fail, the healthy one when one fails, between two healthy ones `default` iff strictly faster; the URL is the one configured for the name |
| HealthCheck.ChoiceIsBest | src/health-check.ts:73-94 | the chosen processor fails only if the other does too, and is never slower than a healthy alternative |
| HealthCheck.ProbeFailureChoosesDefault | src/health-check.ts:40-56 | a failed probe routes to `default` |
| HealthCheck.Lookup | src/health-check.ts:23-31 | the cached snapshot is found iff one is stored and has not expired |
| HealthCheck.GetHealthStep | src/health-check.ts:59-71 | a live snapshot is used without probing and the cache is not rewritten; otherwise the probe's snapshot is cached for EXPIRE_TIME seconds and chosen from; either way the cache afterwards holds a live snapshot that gives the same choice |
| HealthCheck.LiveEntryIsNeverReprobed | src/health-check.ts:59-64 | calls made while a snapshot is live never probe, leave the cache alone and all give that snapshot's choice |
| HealthCheck.AtMostOneProbePerWindow | src/health-check.ts:59-71 | calls made one after another within one EXPIRE_TIME window probe the processors at most once |
| HealthCheck.HealthCache.GetCachedHealth | src/health-check.ts:23-31 | returns the stored snapshot exactly while it is live |
| HealthCheck.HealthCache.CacheHealthCheck | src/health-check.ts:18-21 | stores the snapshot with an expiry EXPIRE_TIME seconds from now |
| HealthCheck.HealthCache.GetHealth | src/health-check.ts:59-71 | the choice, the cache afterwards and whether it probed are those of GetHealthStep |
| ProcessPayment.RequestsTo | src/process-payment.ts:23-37 | one POST per processor tried, to that processor's URL, each with the payment and the same `requestedAt` |
| ProcessPayment.PrimaryProcessor | src/process-payment.ts:20-21 | `default` iff it is healthy and its circuit does not report open |
| ProcessPayment.DeliverySequence | src/process-payment.ts:39-87 | at most two attempts, the second to the other processor and only after a non-ok answer; a row is inserted iff some attempt answered ok, for that processor; one circuit call per answered attempt (none after a thrown first fetch, exactly one for the primary when the second fetch throws), a success exactly for the inserting one; a thrown first fetch records nothing and inserts nothing |
| ProcessPayment.ApplyEvent | src/process-payment.ts:41-83 | a circuit call rewrites only its processor's record, to the success or failure transition of the record it read |
| ProcessPayment.BothRejectedFailsBoth | src/process-payment.ts:51-84 | when both processors answer non-ok, each circuit's failure count goes up by exactly one |
| ProcessPayment.Ledger.Insert | src/process-payment.ts:42-45 | one row is appended |
| ProcessPayment.Deliver | src/process-payment.ts:23-85 | ok iff a row was inserted; the POSTs, the circuit store and the ledger are those DeliverySequence plans for the primary |
| ProcessPayment.ProcessPayment | src/process-payment.ts:8-89 | the primary is chosen from health and the `default` circuit's answer, after which the circuit store has been checked and then updated by the planned circuit calls; at most one ledger row is appended, with the processor that answered ok and the shared `requestedAt` |
| ProcessPayment.NoMatchesNoSum | src/process-payment.ts:108-118 | a processor with no rows in range sums to zero, so the zero default agrees with the query |
| ProcessPayment.InsertedRowIsCounted | src/process-payment.ts:96-104 | an inserted row adds one to the count and its amount to the sum of its own processor when in range, and nothing otherwise |
| ProcessPayment.UnboundedSummaryCountsEveryRow | src/process-payment.ts:96-104 | without bounds every row is counted exactly once, under its own processor |
| ProcessPayment.GetPaymentsSummary | src/process-payment.ts:91-124 | each processor's totals are the count and sum of its rows in `[from, to]`, zero when it has none |
| Worker.PaymentKeyInjective | src/worker.ts:32 | distinct correlation ids never share a `payment:` key |
| Worker.DeliverAttempt | src/worker.ts:17-71 | the chosen processor is tried first and the other one only after a non-ok answer; the payment is delivered iff an answer was ok, by the processor that gave it; an error is raised iff a fetch rejected, with that fetch's error name |
| Worker.Attempt | src/worker.ts:14-71 | one pass of the `try` block: the processors tried and how the attempt ends are DeliverAttempt's decision for the processor `getHealth` chooses and the two fetch outcomes, so the first POST goes to that processor and the health cache becomes what `getHealth` leaves; a delivery writes exactly the payment's key with its amount, this attempt's `requestedAt` and the processor that took it, and any other ending leaves the records alone |
| Worker.RetryFrom | src/worker.ts:7-82 | the recursion on `retryCount`: the run from attempt `retryCount` makes at least one and at most `1 + MAX_TIMEOUT_RETRIES - retryCount` attempts, the first of which is the attempt at the current state |
| Worker.RetryIsBounded | src/worker.ts:72-80 | there are between one and four attempts, every attempt but the last raised a `TimeoutError`, and the last is not retried |
| Worker.OnlyTheLastAttemptWrites | src/worker.ts:31-77 | the payment hashes after the run differ from before only by the last attempt's write, made iff it delivered, with its processor and its `requestedAt` |
| Worker.RedeliveryOverwrites | src/worker.ts:32-39 | redelivering a payment already stored adds no key, and a run whose last attempt delivered replaces the record with that attempt's amount, `requestedAt` and processor |
| Worker.OtherPaymentsUntouched | src/worker.ts:32-39 | the records of all other payments are unchanged |
| Worker.BothRejectedEndsQuietly | src/worker.ts:62-71 | two non-ok answers write nothing, raise nothing and are not retried |
| Worker.PaymentStore.HmSet | src/worker.ts:32-39 | the record under `payment:<correlationId>` is set, nothing else changes |
| Worker.AttemptDelivery | src/worker.ts:14-71 | the result, the health cache and the payment hashes are those of one Attempt |
| Worker.ProcessPaymentFromQueue | src/worker.ts:7-82 | the results of the attempts made, the health cache and the payment hashes are those of RetryFrom from `retryCount` 0 |
| Worker.PaymentQueue.LPop | src/worker.ts:87 | pops and returns the head, or returns nothing from an empty list |
| Worker.ProcessPaymentQueueStep | src/worker.ts:84-99 | the head is always consumed; nothing or an empty string is idle, text that does not parse is dropped, and otherwise the payment is processed as ProcessPaymentFromQueue does |

## Left out

- **HTTP routing.** `src/index.ts` (routing, status codes, the error handler and `purgePayments`) is not part of this model. It is not part of the routing and delivery core.
- **External I/O.** Redis commands, SQL statements and `fetch` are modelled by their effect only: a map, a sequence or an oracle value. They are assumed not to fail except where the source handles a failure, so a failing `hmset`, `INSERT` or `lpop` is not modelled.
- **Concurrency.** The `Promise.all` fan-outs and races between instances sharing the store are not modelled. Calls run in program order.
- **Clock.** The clock is a parameter. It does not advance within one `processPayment` call, and each worker attempt gets its own `now`.
- **Delays and timeouts.** The `setTimeout` delays are not modelled. The 200 ms abort signals only show up as an outcome whose error name is `TimeoutError`.
- **Cache timing.** The cache's `set` and `expire` are one atomic write. The time-to-live is an expiry timestamp rather than nondeterministic absence.
- **Floating point.** `parseFloat`, floating-point amounts and `SUM(amount)` are integers (cents).
- **Timestamps.** ISO-8601 timestamps are milliseconds. Comparing `requested_at` against the bounds is integer comparison.
- **JSON.** Encoding and decoding of the health snapshot and of queue elements is not modelled. The health bodies arrive as typed values, and `JSON.parse` of a queue element is a parameter.
- **`isHealthy`.** It is imported but not defined in `src/health-check.ts`, so it is an oracle boolean.
- **The worker's `while (true)` loop.** Only one step is modelled, and console logging is left out.
- **Malformed and over-large fields.** Circuit fields written by anything other than `setCircuitState` are not modelled: a state name outside the three, `parseInt` giving `NaN`, or numbers beyond 2^53. `CircuitBreaker.CircuitStore.Valid` requires well-formed fields (a known state name and digit strings, possibly empty or with leading zeros) whose decoded record satisfies the record invariant `Consistent`.
- **Summary parsing.** `parseInt(totalRequests) || 0` and `parseFloat(totalAmount) || 0` in the summary are taken to return the database's count and sum unchanged.
- ProcessPayment.GetPaymentsSummary: takes the grouped query result as input. It requires that this result matches the ledger: one correct row per processor that has rows in range, in any order.
