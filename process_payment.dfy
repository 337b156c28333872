/** Two-attempt delivery with circuit-breaker bookkeeping, and the
    per-processor summary over the ledger (src/process-payment.ts).

    The HTTP calls are oracle values (`FetchOutcome`), `isHealthy("default")`
    is an oracle boolean, the SQL `payments` table is a `Ledger` object
    holding a sequence of rows, and amounts are integers (cents). */
module ProcessPayment {
  import opened Common
  import opened CircuitBreaker

  /** A row of the `payments` table. */
  datatype PaymentRow = PaymentRow(correlationId: string, amount: int, requestedAt: nat, processor: Processor)

  /** The body and target of one `POST {processorUrl}/payments`. */
  datatype PaymentRequest = PaymentRequest(url: string, correlationId: string, amount: int, requestedAt: nat)

  function RequestTo(urls: Urls, p: Processor, payment: Payment, requestedAt: nat): PaymentRequest {
    PaymentRequest(UrlOf(urls, p) + "/payments", payment.correlationId, payment.amount, requestedAt)
  }

  /** The POSTs sent to the processors `tried`, in order: the same payment
      and the same `requestedAt` each time. */
  function RequestsTo(urls: Urls, tried: seq<Processor>, payment: Payment, requestedAt: nat): (r: seq<PaymentRequest>)
    ensures |r| == |tried|
    ensures forall i :: 0 <= i < |r| ==>
              r[i].url == UrlOf(urls, tried[i]) + "/payments" && r[i].requestedAt == requestedAt
              && r[i].correlationId == payment.correlationId && r[i].amount == payment.amount
    decreases |tried|
  {
    if tried == [] then [] else [RequestTo(urls, tried[0], payment, requestedAt)] + RequestsTo(urls, tried[1..], payment, requestedAt)
  }

  /** The processor tried first: `default` only when it is healthy and its
      circuit does not report open. */
  function PrimaryProcessor(defaultHealthy: bool, defaultCircuitOpen: bool): (p: Processor)
    ensures p == Default <==> defaultHealthy && !defaultCircuitOpen
  {
    if defaultHealthy && !defaultCircuitOpen then Default else Fallback
  }

  /** A circuit-breaker call made while delivering. */
  datatype CircuitEvent = Succeeded(processor: Processor) | Failed(processor: Processor)

  /** The plan of one delivery: the processors posted to, in order, the
      circuit calls made, in order, and the processor of the inserted row. */
  datatype Delivery = Delivery(tried: seq<Processor>, events: seq<CircuitEvent>, inserted: Option<Processor>)

  /** The attempt sequence of `processPayment` from the primary processor and
      the outcomes of the two fetches (the second is only made when the first
      answers non-ok). */
  function DeliverySequence(primary: Processor, first: FetchOutcome, second: FetchOutcome): (r: Delivery)
    // at most two attempts, never to the same processor twice
    ensures 1 <= |r.tried| <= 2 && r.tried[0] == primary
    ensures |r.tried| == 2 <==> first == NotOk
    ensures |r.tried| == 2 ==> r.tried[1] == Other(primary)
    // a row is inserted exactly when some attempt answered ok, for the processor that did
    ensures r.inserted.Some? <==> first == Ok || (first == NotOk && second == Ok)
    ensures r.inserted.Some? ==> r.inserted.value == r.tried[|r.tried| - 1]
    // one circuit call per answered attempt, about that attempt's processor,
    // a success exactly for the inserting one; a thrown fetch records nothing
    ensures |r.events| <= |r.tried|
    ensures forall i :: 0 <= i < |r.events| ==> r.events[i].processor == r.tried[i]
    ensures forall i :: 0 <= i < |r.events| ==> (r.events[i].Succeeded? <==> r.inserted == Some(r.tried[i]))
    ensures |r.events| == (if first.Threw? then 0 else if first == NotOk && second.Threw? then 1 else |r.tried|)
    ensures first.Threw? ==> r.events == [] && r.inserted == None
  {
    match first
    case Ok => Delivery([primary], [Succeeded(primary)], Some(primary))
    case Threw(_) => Delivery([primary], [], None)
    case NotOk =>
      var other := Other(primary);
      match second
      case Ok => Delivery([primary, other], [Failed(primary), Succeeded(other)], Some(other))
      case NotOk => Delivery([primary, other], [Failed(primary), Failed(other)], None)
      case Threw(_) => Delivery([primary, other], [Failed(primary)], None)
  }

  /** The circuit store after one circuit-breaker call. */
  function ApplyEvent(store: map<Processor, Fields>, e: CircuitEvent, now: nat): (r: map<Processor, Fields>)
    requires StoreValid(store)
    ensures StoreValid(r)
    ensures r.Keys == store.Keys + {e.processor}
    ensures Current(r, e.processor) == Normalized(
              if e.Succeeded? then AfterSuccess(Current(store, e.processor))
              else AfterFailure(Current(store, e.processor), now))
    ensures forall q :: q != e.processor && q in store ==> r[q] == store[q]
    ensures forall q :: q != e.processor ==> Current(r, q) == Current(store, q)
  {
    var c := if e.Succeeded? then AfterSuccess(Current(store, e.processor))
             else AfterFailure(Current(store, e.processor), now);
    EncodedStateValid(store, e.processor, c);
    store[e.processor := Encode(c)]
  }

  function ApplyEvents(store: map<Processor, Fields>, events: seq<CircuitEvent>, now: nat): (r: map<Processor, Fields>)
    requires StoreValid(store)
    ensures StoreValid(r)
    decreases |events|
  {
    if events == [] then store else ApplyEvents(ApplyEvent(store, events[0], now), events[1..], now)
  }

  /** When both processors reject the payment, each circuit counts one more failure. */
  lemma BothRejectedFailsBoth(store: map<Processor, Fields>, primary: Processor, now: nat)
    requires StoreValid(store)
    ensures var r := ApplyEvents(store, DeliverySequence(primary, NotOk, NotOk).events, now);
      forall p :: Current(r, p).failures == Current(store, p).failures + 1
  {
    assert DeliverySequence(primary, NotOk, NotOk).events == [Failed(primary), Failed(Other(primary))];
    ApplyTwoEvents(store, Failed(primary), Failed(Other(primary)), now);
    forall p {
      TwoFailuresCountOnce(store, primary, p, now);
    }
  }

  /** Failing `primary` and then the other processor adds one failure to `p`'s circuit. */
  lemma TwoFailuresCountOnce(store: map<Processor, Fields>, primary: Processor, p: Processor, now: nat)
    requires StoreValid(store)
    ensures var s1 := ApplyEvent(store, Failed(primary), now);
      Current(ApplyEvent(s1, Failed(Other(primary)), now), p).failures == Current(store, p).failures + 1
  {
    var s1 := ApplyEvent(store, Failed(primary), now);
    var s2 := ApplyEvent(s1, Failed(Other(primary)), now);
    if p == primary {
      assert Current(s2, p) == Current(s1, p);
      assert Current(s1, p) == Normalized(AfterFailure(Current(store, p), now));
    } else {
      assert Current(s1, p) == Current(store, p);
      assert Current(s2, p) == Normalized(AfterFailure(Current(s1, p), now));
    }
  }

  class Ledger {
    /** The rows of the `payments` table, in insertion order. */
    var rows: seq<PaymentRow>

    constructor ()
      ensures rows == []
    {
      rows := [];
    }

    /** `INSERT INTO payments ...`: one more row. */
    method Insert(row: PaymentRow)
      modifies this
      ensures rows == old(rows) + [row]
    {
      rows := rows + [row];
    }
  }

  lemma ApplyOneEvent(store: map<Processor, Fields>, e: CircuitEvent, now: nat)
    requires StoreValid(store)
    ensures ApplyEvents(store, [e], now) == ApplyEvent(store, e, now)
  {
    assert [e][1..] == [];
  }

  lemma ApplyTwoEvents(store: map<Processor, Fields>, e1: CircuitEvent, e2: CircuitEvent, now: nat)
    requires StoreValid(store)
    ensures ApplyEvents(store, [e1, e2], now) == ApplyEvent(ApplyEvent(store, e1, now), e2, now)
  {
    assert [e1, e2][1..] == [e2];
    ApplyOneEvent(ApplyEvent(store, e1, now), e2, now);
  }

  /** The delivery part of `processPayment`, once the primary is chosen. */
  method Deliver(circuits: CircuitStore, ledger: Ledger, urls: Urls, payment: Payment,
                 requestedAt: nat, now: nat, processorToTry: Processor,
                 first: FetchOutcome, second: FetchOutcome)
    returns (ok: bool, requests: seq<PaymentRequest>)
    requires circuits.Valid()
    modifies circuits, ledger
    ensures circuits.Valid()
    ensures var d := DeliverySequence(processorToTry, first, second);
            && ok == d.inserted.Some?
            && requests == RequestsTo(urls, d.tried, payment, requestedAt)
            && circuits.store == ApplyEvents(old(circuits.store), d.events, now)
            && ledger.rows == old(ledger.rows)
                 + (if ok then [PaymentRow(payment.correlationId, payment.amount, requestedAt, d.inserted.value)] else [])
  {
    ghost var start := circuits.store;
    requests := RequestsTo(urls, [processorToTry], payment, requestedAt);
    if first.Threw? {
      ok := false;
      return;
    }
    if first == Ok {
      circuits.RecordSuccess(processorToTry);
      ledger.Insert(PaymentRow(payment.correlationId, payment.amount, requestedAt, processorToTry));
      ApplyOneEvent(start, Succeeded(processorToTry), now);
      ok := true;
      return;
    }

    circuits.RecordFailure(processorToTry, now);
    var fallbackProcessor := Other(processorToTry);
    requests := RequestsTo(urls, [processorToTry, fallbackProcessor], payment, requestedAt);
    if second == Ok {
      circuits.RecordSuccess(fallbackProcessor);
      ledger.Insert(PaymentRow(payment.correlationId, payment.amount, requestedAt, fallbackProcessor));
      ApplyTwoEvents(start, Failed(processorToTry), Succeeded(fallbackProcessor), now);
      ok := true;
    } else if second == NotOk {
      circuits.RecordFailure(fallbackProcessor, now);
      ApplyTwoEvents(start, Failed(processorToTry), Failed(fallbackProcessor), now);
      ok := false;
    } else {
      ApplyOneEvent(start, Failed(processorToTry), now);
      ok := false;
    }
  }

  /** `processPayment`: the primary is `default` when it is healthy and its
      circuit is not open (asking may move it to HALF_OPEN), else `fallback`;
      on ok, record the success and insert the row; on non-ok, record the
      failure and try the other processor the same way, recording a failure
      there too when it also answers non-ok. A rejected fetch ends the call.
      `ok` is false where the source throws "Failed to process payment";
      `requests` are the POSTs made, in order. */
  method ProcessPayment(circuits: CircuitStore, ledger: Ledger, urls: Urls, payment: Payment,
                        requestedAt: nat, now: nat, defaultHealthy: bool,
                        first: FetchOutcome, second: FetchOutcome)
    returns (ok: bool, requests: seq<PaymentRequest>)
    requires circuits.Valid()
    modifies circuits, ledger
    ensures circuits.Valid()
    ensures var primary := PrimaryProcessor(defaultHealthy, ReportsOpen(Current(old(circuits.store), Default), now));
            var d := DeliverySequence(primary, first, second);
            && ok == d.inserted.Some?
            && requests == RequestsTo(urls, d.tried, payment, requestedAt)
            && circuits.store == ApplyEvents(CheckedStore(old(circuits.store), Default, now), d.events, now)
            && ledger.rows == old(ledger.rows)
                 + (if ok then [PaymentRow(payment.correlationId, payment.amount, requestedAt, d.inserted.value)] else [])
  {
    var defaultCircuitOpen := circuits.IsCircuitOpen(Default, now);
    var processorToTry := PrimaryProcessor(defaultHealthy, defaultCircuitOpen);
    ok, requests := Deliver(circuits, ledger, urls, payment, requestedAt, now, processorToTry, first, second);
  }

  // ---------------------------------------------------------------------------
  // getPaymentsSummary

  /** Per-processor totals as the summary reports them. */
  datatype Totals = Totals(totalRequests: nat, totalAmount: int)

  const ZeroTotals: Totals := Totals(0, 0)

  datatype Summary = Summary(defaultTotals: Totals, fallbackTotals: Totals) {
    function Get(p: Processor): Totals {
      if p == Default then defaultTotals else fallbackTotals
    }

    function Set(p: Processor, t: Totals): (s: Summary)
      ensures s.Get(p) == t && s.Get(Other(p)) == Get(Other(p))
    {
      if p == Default then this.(defaultTotals := t) else this.(fallbackTotals := t)
    }
  }

  /** The `requested_at` filter: a bound that is null or empty (`None`) is not applied. */
  predicate InRange(t: nat, from: Option<nat>, to: Option<nat>) {
    (from.None? || from.value <= t) && (to.None? || t <= to.value)
  }

  predicate Matches(row: PaymentRow, p: Processor, from: Option<nat>, to: Option<nat>) {
    row.processor == p && InRange(row.requestedAt, from, to)
  }

  /** `COUNT(*)` of `p`'s rows in range. */
  function MatchCount(rows: seq<PaymentRow>, p: Processor, from: Option<nat>, to: Option<nat>): nat
    decreases |rows|
  {
    if rows == [] then 0
    else (if Matches(rows[0], p, from, to) then 1 else 0) + MatchCount(rows[1..], p, from, to)
  }

  /** `SUM(amount)` of `p`'s rows in range. */
  function MatchSum(rows: seq<PaymentRow>, p: Processor, from: Option<nat>, to: Option<nat>): int
    decreases |rows|
  {
    if rows == [] then 0
    else (if Matches(rows[0], p, from, to) then rows[0].amount else 0) + MatchSum(rows[1..], p, from, to)
  }

  lemma {:induction false} NoMatchesNoSum(rows: seq<PaymentRow>, p: Processor, from: Option<nat>, to: Option<nat>)
    requires MatchCount(rows, p, from, to) == 0
    ensures MatchSum(rows, p, from, to) == 0
    decreases |rows|
  {
    if rows != [] {
      NoMatchesNoSum(rows[1..], p, from, to);
    }
  }

  /** Inserting a row adds it to its processor's totals when it is in range,
      and to nothing else. */
  lemma {:induction false} InsertedRowIsCounted(rows: seq<PaymentRow>, row: PaymentRow, p: Processor,
                                                from: Option<nat>, to: Option<nat>)
    ensures MatchCount(rows + [row], p, from, to)
         == MatchCount(rows, p, from, to) + (if Matches(row, p, from, to) then 1 else 0)
    ensures MatchSum(rows + [row], p, from, to)
         == MatchSum(rows, p, from, to) + (if Matches(row, p, from, to) then row.amount else 0)
    decreases |rows|
  {
    if rows == [] {
      assert [row][1..] == [];
    } else {
      assert (rows + [row])[1..] == rows[1..] + [row];
      InsertedRowIsCounted(rows[1..], row, p, from, to);
    }
  }

  /** Without bounds every row is counted once, for its own processor. */
  lemma {:induction false} UnboundedSummaryCountsEveryRow(rows: seq<PaymentRow>)
    ensures MatchCount(rows, Default, None, None) + MatchCount(rows, Fallback, None, None) == |rows|
    decreases |rows|
  {
    if rows != [] {
      UnboundedSummaryCountsEveryRow(rows[1..]);
    }
  }

  /** One row of the grouped query result. */
  datatype GroupRow = GroupRow(processor: Processor, totalRequests: nat, totalAmount: int)

  /** What `SELECT processor, COUNT(*), SUM(amount) ... GROUP BY processor`
      returns over `rows`, in any order: a correct row for each processor
      having rows in range, and no row for the others. */
  predicate IsGroupedResult(results: seq<GroupRow>, rows: seq<PaymentRow>, from: Option<nat>, to: Option<nat>) {
    && (forall i :: 0 <= i < |results| ==>
          && results[i].totalRequests == MatchCount(rows, results[i].processor, from, to) > 0
          && results[i].totalAmount == MatchSum(rows, results[i].processor, from, to))
    && (forall p :: MatchCount(rows, p, from, to) > 0 ==>
          exists i :: 0 <= i < |results| && results[i].processor == p)
  }

  /** `getPaymentsSummary`: start both processors at zero, then overwrite the
      totals of every processor the query returned. The result is each
      processor's count and sum over its rows in `[from, to]`, zero for a
      processor without any. */
  method GetPaymentsSummary(rows: seq<PaymentRow>, from: Option<nat>, to: Option<nat>, results: seq<GroupRow>)
    returns (summary: Summary)
    requires IsGroupedResult(results, rows, from, to)
    ensures forall p :: summary.Get(p) == Totals(MatchCount(rows, p, from, to), MatchSum(rows, p, from, to))
  {
    summary := Summary(ZeroTotals, ZeroTotals);
    var i := 0;
    while i < |results|
      invariant 0 <= i <= |results|
      invariant forall p :: summary.Get(p) ==
                  if exists j :: 0 <= j < i && results[j].processor == p
                  then Totals(MatchCount(rows, p, from, to), MatchSum(rows, p, from, to))
                  else ZeroTotals
    {
      var result := results[i];
      summary := summary.Set(result.processor, Totals(result.totalRequests, result.totalAmount));
      i := i + 1;
    }
    forall p
      ensures summary.Get(p) == Totals(MatchCount(rows, p, from, to), MatchSum(rows, p, from, to))
    {
      if MatchCount(rows, p, from, to) == 0 {
        NoMatchesNoSum(rows, p, from, to);
      }
    }
  }
}
