/** The queue worker (src/worker.ts).

    Each step of the worker loop pops the head of `payment_queue`, parses it
    and delivers the payment: first to the processor `getHealth` chooses,
    then, on a non-ok answer, to the other one. A success writes the hash
    `payment:<correlationId>`. A delivery that raises a `TimeoutError` is
    retried, at most MAX_TIMEOUT_RETRIES times; the source recurses on
    `retryCount`, modelled here as a loop with that counter. The outside
    world of each attempt (the clock, the health probe's answer, the two
    fetches' outcomes) is an oracle value. */
module Worker {
  import opened Common
  import opened HealthCheck

  /** Retries after a timeout: at most 1 + MAX_TIMEOUT_RETRIES attempts. */
  const MAX_TIMEOUT_RETRIES: nat := 3

  /** The fields of a `payment:<correlationId>` hash. */
  datatype PaymentRecord = PaymentRecord(amount: int, requestedAt: nat, processor: Processor)

  function PaymentKey(correlationId: string): string {
    "payment:" + correlationId
  }

  /** Distinct payments never share a key. */
  lemma PaymentKeyInjective(a: string, b: string)
    ensures PaymentKey(a) == PaymentKey(b) ==> a == b
  {
    if PaymentKey(a) == PaymentKey(b) {
      assert a == PaymentKey(a)[8..];
      assert b == PaymentKey(b)[8..];
    }
  }

  /** How one delivery attempt ends: a processor took the payment, both
      answered non-ok, or a fetch raised the named error. */
  datatype AttemptResult = Delivered(processor: Processor) | Undelivered | Raised(errorName: string)

  /** The processors posted to in one attempt, in order, and how it ended. */
  datatype Delivery = Delivery(tried: seq<Processor>, result: AttemptResult)

  /** One attempt of `processPaymentFromQueue` given the chosen processor
      and the two fetch outcomes. */
  function DeliverAttempt(chosen: Processor, first: FetchOutcome, second: FetchOutcome): (r: Delivery)
    ensures 1 <= |r.tried| <= 2 && r.tried[0] == chosen
    ensures |r.tried| == 2 <==> first == NotOk
    ensures |r.tried| == 2 ==> r.tried[1] == Other(chosen)
    ensures r.result.Delivered? <==> first == Ok || (first == NotOk && second == Ok)
    ensures r.result.Delivered? ==> r.result.processor == r.tried[|r.tried| - 1]
    ensures r.result.Raised? <==> first.Threw? || (first == NotOk && second.Threw?)
    ensures r.result.Raised? ==> r.result.errorName == (if first.Threw? then first.errorName else second.errorName)
  {
    match first
    case Ok => Delivery([chosen], Delivered(chosen))
    case Threw(name) => Delivery([chosen], Raised(name))
    case NotOk =>
      var other := Other(chosen);
      match second
      case Ok => Delivery([chosen, other], Delivered(other))
      case NotOk => Delivery([chosen, other], Undelivered)
      case Threw(name) => Delivery([chosen, other], Raised(name))
  }

  /** What the world answers to one attempt: the clock (which also stamps
      `requestedAt`), the health probe's answer if the cache is cold, and
      the two fetches' outcomes. */
  datatype AttemptWorld = AttemptWorld(now: nat, probe: Probe, first: FetchOutcome, second: FetchOutcome)

  /** The shared state the worker touches: the health cache and the payment hashes. */
  datatype WorkerState = WorkerState(entry: Option<CacheEntry>, records: map<string, PaymentRecord>)

  datatype AttemptStep = AttemptStep(state: WorkerState, delivery: Delivery)

  /** One attempt: ask `getHealth`, deliver, and on success write the record
      of the processor that took the payment. */
  function Attempt(urls: Urls, st: WorkerState, payment: Payment, w: AttemptWorld): (r: AttemptStep)
    ensures var h := GetHealthStep(urls, st.entry, w.now, w.probe);
      && r.delivery == DeliverAttempt(h.choice.name, w.first, w.second)
      && |r.delivery.tried| >= 1 && r.delivery.tried[0] == h.choice.name && r.state.entry == h.entry
    ensures !r.delivery.result.Delivered? ==> r.state.records == st.records
    ensures r.delivery.result.Delivered? ==>
      && r.state.records.Keys == st.records.Keys + {PaymentKey(payment.correlationId)}
      && r.state.records[PaymentKey(payment.correlationId)]
           == PaymentRecord(payment.amount, w.now, r.delivery.result.processor)
    ensures forall k :: k in st.records && k != PaymentKey(payment.correlationId) ==>
      k in r.state.records && r.state.records[k] == st.records[k]
  {
    var h := GetHealthStep(urls, st.entry, w.now, w.probe);
    var d := DeliverAttempt(h.choice.name, w.first, w.second);
    AttemptStep(WorkerState(h.entry, Recorded(st.records, payment, w.now, d.result)), d)
  }

  /** The payment hashes after an attempt that ended with `result` at time
      `requestedAt`: only a delivery writes, and only the payment's own key. */
  function Recorded(records: map<string, PaymentRecord>, payment: Payment, requestedAt: nat,
                    result: AttemptResult): map<string, PaymentRecord>
  {
    if result.Delivered?
    then records[PaymentKey(payment.correlationId) := PaymentRecord(payment.amount, requestedAt, result.processor)]
    else records
  }

  /** Whether the attempt numbered `retryCount` is followed by another: only
      a `TimeoutError`, and only below the retry bound. */
  predicate RetriesAfter(result: AttemptResult, retryCount: nat) {
    result.Raised? && result.errorName == TIMEOUT_ERROR && retryCount < MAX_TIMEOUT_RETRIES
  }

  /** The outcome of `processPaymentFromQueue`: the state afterwards and the
      result of each attempt made. */
  datatype Run = Run(state: WorkerState, results: seq<AttemptResult>)

  /** `processPaymentFromQueue(payment, retryCount)`, attempts numbered from
      `retryCount` using `worlds[retryCount]` onwards. */
  function RetryFrom(urls: Urls, st: WorkerState, payment: Payment, worlds: seq<AttemptWorld>, retryCount: nat): (r: Run)
    requires retryCount <= MAX_TIMEOUT_RETRIES && |worlds| == MAX_TIMEOUT_RETRIES + 1
    ensures 1 <= |r.results| <= MAX_TIMEOUT_RETRIES + 1 - retryCount
    ensures r.results[0] == Attempt(urls, st, payment, worlds[retryCount]).delivery.result
    decreases MAX_TIMEOUT_RETRIES - retryCount
  {
    var step := Attempt(urls, st, payment, worlds[retryCount]);
    if RetriesAfter(step.delivery.result, retryCount) then
      var rest := RetryFrom(urls, step.state, payment, worlds, retryCount + 1);
      Run(rest.state, [step.delivery.result] + rest.results)
    else
      Run(step.state, [step.delivery.result])
  }

  /** The retry discipline, for attempts numbered from `retryCount`: at
      least one attempt and at most 1 + MAX_TIMEOUT_RETRIES in all; every
      attempt but the last raised a `TimeoutError`, and the last is not
      retried. */
  predicate RetryShape(results: seq<AttemptResult>, retryCount: nat) {
    && 1 <= |results| <= MAX_TIMEOUT_RETRIES + 1 - retryCount
    && (forall i :: 0 <= i < |results| - 1 ==> results[i].Raised? && results[i].errorName == TIMEOUT_ERROR)
    && !RetriesAfter(results[|results| - 1], retryCount + |results| - 1)
  }

  /** A retried attempt followed by a run of the right shape is a run of the right shape. */
  lemma RetryShapeCons(first: AttemptResult, rest: seq<AttemptResult>, retryCount: nat)
    requires RetriesAfter(first, retryCount) && RetryShape(rest, retryCount + 1)
    ensures RetryShape([first] + rest, retryCount)
  {
    var r := [first] + rest;
    forall i | 0 <= i < |r| - 1
      ensures r[i].Raised? && r[i].errorName == TIMEOUT_ERROR
    {
      if i > 0 {
        assert r[i] == rest[i - 1];
      }
    }
    assert r[|r| - 1] == rest[|rest| - 1];
  }

  /** `processPaymentFromQueue` follows the retry discipline. */
  lemma {:induction false} RetryIsBounded(urls: Urls, st: WorkerState, payment: Payment,
                                          worlds: seq<AttemptWorld>, retryCount: nat)
    requires retryCount <= MAX_TIMEOUT_RETRIES && |worlds| == MAX_TIMEOUT_RETRIES + 1
    ensures RetryShape(RetryFrom(urls, st, payment, worlds, retryCount).results, retryCount)
    decreases MAX_TIMEOUT_RETRIES - retryCount
  {
    RetryFromUnfold(urls, st, payment, worlds, retryCount);
    var step := Attempt(urls, st, payment, worlds[retryCount]);
    if RetriesAfter(step.delivery.result, retryCount) {
      RetryIsBounded(urls, step.state, payment, worlds, retryCount + 1);
      RetryShapeCons(step.delivery.result, RetryFrom(urls, step.state, payment, worlds, retryCount + 1).results,
                     retryCount);
    }
  }

  /** The payment hashes `after` a run from `before` whose attempts, numbered
      from `retryCount`, had `results`: only the last attempt wrote, and
      only if it delivered, with that attempt's `requestedAt`. */
  predicate OnlyLastWrote(before: map<string, PaymentRecord>, after: map<string, PaymentRecord>, payment: Payment,
                          worlds: seq<AttemptWorld>, retryCount: nat, results: seq<AttemptResult>)
  {
    && |results| >= 1
    && retryCount + |results| - 1 < |worlds|
    && after == Recorded(before, payment, worlds[retryCount + |results| - 1].now, results[|results| - 1])
  }

  lemma OnlyLastWroteCons(before: map<string, PaymentRecord>, after: map<string, PaymentRecord>, payment: Payment,
                          worlds: seq<AttemptWorld>, retryCount: nat, first: AttemptResult, rest: seq<AttemptResult>)
    requires OnlyLastWrote(before, after, payment, worlds, retryCount + 1, rest)
    ensures OnlyLastWrote(before, after, payment, worlds, retryCount, [first] + rest)
  {
    var r := [first] + rest;
    assert r[|r| - 1] == rest[|rest| - 1];
    assert retryCount + |r| - 1 == retryCount + 1 + |rest| - 1;
  }

  /** Only the last attempt can write the payment's record, and it does so
      exactly when it delivered, with that attempt's `requestedAt`. */
  lemma {:induction false} OnlyTheLastAttemptWrites(urls: Urls, st: WorkerState, payment: Payment,
                                                    worlds: seq<AttemptWorld>, retryCount: nat)
    requires retryCount <= MAX_TIMEOUT_RETRIES && |worlds| == MAX_TIMEOUT_RETRIES + 1
    ensures var r := RetryFrom(urls, st, payment, worlds, retryCount);
      OnlyLastWrote(st.records, r.state.records, payment, worlds, retryCount, r.results)
    decreases MAX_TIMEOUT_RETRIES - retryCount
  {
    RetryFromUnfold(urls, st, payment, worlds, retryCount);
    var step := Attempt(urls, st, payment, worlds[retryCount]);
    if RetriesAfter(step.delivery.result, retryCount) {
      var next := WorkerState(step.state.entry, st.records);
      assert step.state == next;
      OnlyTheLastAttemptWrites(urls, next, payment, worlds, retryCount + 1);
      var rest := RetryFrom(urls, next, payment, worlds, retryCount + 1);
      OnlyLastWroteCons(st.records, rest.state.records, payment, worlds, retryCount, step.delivery.result, rest.results);
    }
  }

  /** Delivering a payment whose record already exists overwrites it: the
      set of stored payments does not grow. */
  lemma RedeliveryOverwrites(urls: Urls, st: WorkerState, payment: Payment, worlds: seq<AttemptWorld>)
    requires |worlds| == MAX_TIMEOUT_RETRIES + 1
    requires PaymentKey(payment.correlationId) in st.records
    ensures RetryFrom(urls, st, payment, worlds, 0).state.records.Keys == st.records.Keys
    ensures var r := RetryFrom(urls, st, payment, worlds, 0);
      r.results[|r.results| - 1].Delivered? ==>
        r.state.records[PaymentKey(payment.correlationId)]
          == PaymentRecord(payment.amount, worlds[|r.results| - 1].now, r.results[|r.results| - 1].processor)
  {
    OnlyTheLastAttemptWrites(urls, st, payment, worlds, 0);
  }

  /** Records of other payments are never touched. */
  lemma OtherPaymentsUntouched(urls: Urls, st: WorkerState, payment: Payment, worlds: seq<AttemptWorld>, id: string)
    requires |worlds| == MAX_TIMEOUT_RETRIES + 1
    requires id != payment.correlationId
    ensures var records := RetryFrom(urls, st, payment, worlds, 0).state.records;
      && (PaymentKey(id) in records <==> PaymentKey(id) in st.records)
      && (PaymentKey(id) in st.records ==> records[PaymentKey(id)] == st.records[PaymentKey(id)])
  {
    PaymentKeyInjective(id, payment.correlationId);
    OnlyTheLastAttemptWrites(urls, st, payment, worlds, 0);
  }

  /** When both processors answer non-ok, nothing is written, nothing is raised
      and there is no retry. */
  lemma BothRejectedEndsQuietly(urls: Urls, st: WorkerState, payment: Payment, worlds: seq<AttemptWorld>)
    requires |worlds| == MAX_TIMEOUT_RETRIES + 1
    requires worlds[0].first == NotOk && worlds[0].second == NotOk
    ensures RetryFrom(urls, st, payment, worlds, 0).results == [Undelivered]
    ensures RetryFrom(urls, st, payment, worlds, 0).state.records == st.records
  {
  }

  class PaymentStore {
    /** The `payment:<correlationId>` hashes. */
    var records: map<string, PaymentRecord>

    constructor ()
      ensures records == map[]
    {
      records := map[];
    }

    /** `hmset payment:<correlationId> amount .. requestedAt .. processor ..`. */
    method HmSet(correlationId: string, record: PaymentRecord)
      modifies this
      ensures records == old(records)[PaymentKey(correlationId) := record]
    {
      records := records[PaymentKey(correlationId) := record];
    }
  }

  /** The body of one `processPaymentFromQueue` call, without its retry:
      choose through `getHealth`, post to the chosen processor, then on a
      non-ok answer to the other one, writing the record of whichever took it. */
  method AttemptDelivery(health: HealthCache, payments: PaymentStore, urls: Urls, payment: Payment,
                         world: AttemptWorld)
    returns (result: AttemptResult)
    modifies health, payments
    ensures var step := Attempt(urls, WorkerState(old(health.entry), old(payments.records)), payment, world);
      && result == step.delivery.result
      && health.entry == step.state.entry
      && payments.records == step.state.records
  {
    var healthyProcessor, _ := health.GetHealth(urls, world.now, world.probe);
    if world.first == Ok {
      payments.HmSet(payment.correlationId, PaymentRecord(payment.amount, world.now, healthyProcessor.name));
      return Delivered(healthyProcessor.name);
    }
    if world.first.Threw? {
      return Raised(world.first.errorName);
    }
    var fallbackProcessor := Other(healthyProcessor.name);
    if world.second == Ok {
      payments.HmSet(payment.correlationId, PaymentRecord(payment.amount, world.now, fallbackProcessor));
      result := Delivered(fallbackProcessor);
    } else if world.second.Threw? {
      result := Raised(world.second.errorName);
    } else {
      result := Undelivered;
    }
  }

  /** `processPaymentFromQueue(payment)`: attempts until one does not raise a
      `TimeoutError` or the retries run out. Returns the result of each attempt. */
  method ProcessPaymentFromQueue(health: HealthCache, payments: PaymentStore, urls: Urls, payment: Payment,
                                 worlds: seq<AttemptWorld>)
    returns (results: seq<AttemptResult>)
    requires |worlds| == MAX_TIMEOUT_RETRIES + 1
    modifies health, payments
    ensures var r := RetryFrom(urls, WorkerState(old(health.entry), old(payments.records)), payment, worlds, 0);
      && results == r.results
      && health.entry == r.state.entry
      && payments.records == r.state.records
  {
    ghost var state := WorkerState(health.entry, payments.records);
    ghost var run := RetryFrom(urls, state, payment, worlds, 0);
    ghost var rest := run;
    var retryCount := 0;
    results := [];
    while true
      invariant retryCount <= MAX_TIMEOUT_RETRIES
      invariant WorkerState(health.entry, payments.records) == state
      invariant rest == RetryFrom(urls, state, payment, worlds, retryCount)
      invariant results + rest.results == run.results && rest.state == run.state
      decreases MAX_TIMEOUT_RETRIES - retryCount
    {
      ghost var step := Attempt(urls, state, payment, worlds[retryCount]);
      RetryFromUnfold(urls, state, payment, worlds, retryCount);
      ghost var done := results;
      var result := AttemptDelivery(health, payments, urls, payment, worlds[retryCount]);
      state := step.state;
      results := results + [result];
      if result.Raised? && result.errorName == TIMEOUT_ERROR && retryCount < MAX_TIMEOUT_RETRIES {
        retryCount := retryCount + 1;
        ghost var next := RetryFrom(urls, state, payment, worlds, retryCount);
        assert rest.results == [result] + next.results;
        assert (done + [result]) + next.results == done + ([result] + next.results);
        rest := next;
      } else {
        return;
      }
    }
  }

  /** One step of RetryFrom: the first attempt, then either the rest of the
      run or nothing more. */
  lemma RetryFromUnfold(urls: Urls, st: WorkerState, payment: Payment, worlds: seq<AttemptWorld>, retryCount: nat)
    requires retryCount <= MAX_TIMEOUT_RETRIES && |worlds| == MAX_TIMEOUT_RETRIES + 1
    ensures var step := Attempt(urls, st, payment, worlds[retryCount]);
      var r := RetryFrom(urls, st, payment, worlds, retryCount);
      if RetriesAfter(step.delivery.result, retryCount) then
        var rest := RetryFrom(urls, step.state, payment, worlds, retryCount + 1);
        r.state == rest.state && r.results == [step.delivery.result] + rest.results
      else
        r.state == step.state && r.results == [step.delivery.result]
  {
  }

  class PaymentQueue {
    /** The `payment_queue` list: serialized payments, head first. */
    var items: seq<string>

    constructor (items: seq<string>)
      ensures this.items == items
    {
      this.items := items;
    }

    /** `lpop payment_queue`. */
    method LPop() returns (r: Option<string>)
      modifies this
      ensures old(items) == [] ==> r == None && items == []
      ensures old(items) != [] ==> r == Some(old(items)[0]) && items == old(items)[1..]
    {
      if items == [] {
        r := None;
      } else {
        r := Some(items[0]);
        items := items[1..];
      }
    }
  }

  /** How one step of the worker loop ends: nothing (or an empty string) was
      popped, the popped text did not parse and was dropped, or the payment
      was processed with the given attempt results. */
  datatype StepOutcome = Idle | Dropped | Processed(results: seq<AttemptResult>)

  /** One iteration of `processPaymentQueue`. `parse` stands for `JSON.parse`
      (`None` where it throws); `worlds` is what the attempts meet. */
  method ProcessPaymentQueueStep(queue: PaymentQueue, health: HealthCache, payments: PaymentStore, urls: Urls,
                                 parse: string -> Option<Payment>, worlds: seq<AttemptWorld>)
    returns (outcome: StepOutcome)
    requires |worlds| == MAX_TIMEOUT_RETRIES + 1
    modifies queue, health, payments
    ensures queue.items == if old(queue.items) == [] then [] else old(queue.items)[1..]
    ensures old(queue.items) == [] || old(queue.items)[0] == "" ==>
              outcome == Idle && health.entry == old(health.entry) && payments.records == old(payments.records)
    ensures old(queue.items) != [] && old(queue.items)[0] != "" && parse(old(queue.items)[0]).None? ==>
              outcome == Dropped && health.entry == old(health.entry) && payments.records == old(payments.records)
    ensures old(queue.items) != [] && old(queue.items)[0] != "" && parse(old(queue.items)[0]).Some? ==>
              var r := RetryFrom(urls, WorkerState(old(health.entry), old(payments.records)),
                                 parse(old(queue.items)[0]).value, worlds, 0);
              && outcome == Processed(r.results)
              && health.entry == r.state.entry
              && payments.records == r.state.records
  {
    var result := queue.LPop();
    if result.Some? && result.value != "" {
      var payment := parse(result.value);
      if payment.None? {
        outcome := Dropped;
        return;
      }
      var results := ProcessPaymentFromQueue(health, payments, urls, payment.value, worlds);
      outcome := Processed(results);
    } else {
      outcome := Idle;
    }
  }
}
