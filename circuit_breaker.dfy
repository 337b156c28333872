/** The per-processor circuit breaker (src/circuit-breaker.ts).

    Each processor's record lives in the shared store as a hash of three
    string fields, `state`, `failures` and `lastFailure`. Every operation
    reads the record (creating `{CLOSED, 0, null}` when there is none),
    changes it and writes the three fields back. The store is modelled as a
    map from processor to those three strings, held by a `CircuitStore`
    object; the clock is the parameter `now` (milliseconds since the epoch). */
module CircuitBreaker {
  import opened Common

  /** More failures than this, without a success in between, open the circuit. */
  const FAILURE_THRESHOLD: nat := 1
  /** Milliseconds after the last failure before an open circuit lets a probe through. */
  const RECOVERY_TIMEOUT: nat := 6000

  datatype State = Closed | Open | HalfOpen

  /** A decoded circuit record. A `lastFailure` of `None` is JavaScript's `null`. */
  datatype CircuitState = CircuitState(state: State, failures: nat, lastFailure: Option<nat>)

  /** The record a processor gets on first access. */
  const Initial: CircuitState := CircuitState(Closed, 0, None)

  /** The three hash fields as the store holds them. */
  datatype Fields = Fields(state: string, failures: string, lastFailure: string)

  // ---------------------------------------------------------------------------
  // Decimal text, as written by `Number.prototype.toString` and read by `parseInt(_, 10)`

  predicate IsDigit(c: char) {
    '0' <= c <= '9'
  }

  predicate IsDigits(s: string) {
    forall i :: 0 <= i < |s| ==> IsDigit(s[i])
  }

  function DigitChar(d: nat): (c: char)
    requires d < 10
    ensures IsDigit(c)
  {
    (('0' as int) + d) as char
  }

  function DigitValue(c: char): (d: nat)
    requires IsDigit(c)
    ensures d < 10
  {
    (c as int) - ('0' as int)
  }

  /** The decimal text of a non-negative integer: never empty, digits only. */
  function NatToDecimal(n: nat): (s: string)
    ensures |s| >= 1 && IsDigits(s)
    decreases n
  {
    if n < 10 then [DigitChar(n)] else NatToDecimal(n / 10) + [DigitChar(n % 10)]
  }

  /** The value of a string of decimal digits; the empty string reads as 0. */
  function ParseDecimal(s: string): nat
    requires IsDigits(s)
    decreases |s|
  {
    if s == [] then 0 else ParseDecimal(s[..|s| - 1]) * 10 + DigitValue(s[|s| - 1])
  }

  lemma {:induction false} ParseDecimalOfNatToDecimal(n: nat)
    ensures ParseDecimal(NatToDecimal(n)) == n
    decreases n
  {
    if n >= 10 {
      ParseDecimalOfNatToDecimal(n / 10);
      var s := NatToDecimal(n);
      assert s[..|s| - 1] == NatToDecimal(n / 10);
      assert DigitValue(DigitChar(n % 10)) == n % 10;
    } else {
      assert DigitValue(DigitChar(n)) == n;
    }
  }

  // ---------------------------------------------------------------------------
  // Encoding of a record as hash fields

  function StateName(s: State): string {
    match s
    case Closed => "CLOSED"
    case Open => "OPEN"
    case HalfOpen => "HALF_OPEN"
  }

  function ParseState(s: string): (r: Option<State>)
    ensures r.Some? ==> StateName(r.value) == s
  {
    if s == "CLOSED" then Some(Closed)
    else if s == "OPEN" then Some(Open)
    else if s == "HALF_OPEN" then Some(HalfOpen)
    else None
  }

  /** The field values this module ever finds in a record: an empty `state`
      (read as "no record"), or a known state name with decimal counters. */
  predicate WellFormed(f: Fields) {
    f.state == "" || (ParseState(f.state).Some? && IsDigits(f.failures) && IsDigits(f.lastFailure))
  }

  /** `setCircuitState`: a `lastFailure` that is `null` or 0 (both falsy) is written as "". */
  function Encode(c: CircuitState): (f: Fields)
    ensures WellFormed(f) && f.state != ""
    ensures f.lastFailure == "" <==> c.lastFailure in {None, Some(0)}
  {
    Fields(StateName(c.state),
           NatToDecimal(c.failures),
           if c.lastFailure.Some? && c.lastFailure.value != 0 then NatToDecimal(c.lastFailure.value) else "")
  }

  /** The decoding half of `getCircuitState`, for a record whose `state` is set:
      an empty `failures` reads as 0 and an empty `lastFailure` as null. */
  function Decode(f: Fields): (c: CircuitState)
    requires WellFormed(f) && f.state != ""
    ensures StateName(c.state) == f.state
    ensures f.failures == "" ==> c.failures == 0
    ensures c.lastFailure.None? <==> f.lastFailure == ""
  {
    assert ParseDecimal("0") == DigitValue('0') by { assert "0"[..0] == []; }
    CircuitState(ParseState(f.state).value,
                 ParseDecimal(if f.failures == "" then "0" else f.failures),
                 if f.lastFailure != "" then Some(ParseDecimal(f.lastFailure)) else None)
  }

  /** What a round trip through the store makes of a record: a zero timestamp becomes null. */
  function Normalized(c: CircuitState): CircuitState {
    if c.lastFailure == Some(0) then c.(lastFailure := None) else c
  }

  lemma {:induction false} DecodeEncode(c: CircuitState)
    ensures Decode(Encode(c)) == Normalized(c)
    ensures c.lastFailure != Some(0) ==> Decode(Encode(c)) == c
    ensures Encode(c.(lastFailure := Some(0))) == Encode(c.(lastFailure := None))
  {
    ParseDecimalOfNatToDecimal(c.failures);
    if c.lastFailure.Some? {
      ParseDecimalOfNatToDecimal(c.lastFailure.value);
    }
  }

  // ---------------------------------------------------------------------------
  // The record as a state machine

  /** The invariant every operation keeps: a circuit is only OPEN or HALF_OPEN
      after more than FAILURE_THRESHOLD failures, and a zero failure count
      carries no failure timestamp. */
  predicate Consistent(c: CircuitState) {
    && (c.state != Closed ==> c.failures > FAILURE_THRESHOLD)
    && (c.failures == 0 ==> c.lastFailure == None)
  }

  /** `recordFailure` on a decoded record. */
  function AfterFailure(c: CircuitState, now: nat): (r: CircuitState)
    ensures r.failures == c.failures + 1 && r.lastFailure == Some(now)
    ensures r.state == Open <==> c.state == Open || c.failures + 1 > FAILURE_THRESHOLD
    ensures r.state != Open ==> r.state == c.state
    ensures Consistent(c) ==> Consistent(r)
  {
    var counted := c.(failures := c.failures + 1, lastFailure := Some(now));
    if counted.failures > FAILURE_THRESHOLD then counted.(state := Open) else counted
  }

  /** `recordSuccess` on a decoded record: a single success heals any circuit. */
  function AfterSuccess(c: CircuitState): (r: CircuitState)
    ensures r == Initial && Consistent(r)
  {
    c.(failures := 0, state := Closed, lastFailure := None)
  }

  /** Whether `isCircuitOpen` moves an OPEN record to HALF_OPEN: the last
      failure is recorded (and non-zero, as 0 is falsy) and more than
      RECOVERY_TIMEOUT milliseconds old. */
  predicate RecoveryDue(c: CircuitState, now: nat) {
    c.state == Open && c.lastFailure.Some? && c.lastFailure.value != 0
    && now - c.lastFailure.value > RECOVERY_TIMEOUT
  }

  /** The answer of `isCircuitOpen`. */
  predicate ReportsOpen(c: CircuitState, now: nat) {
    c.state == Open && !RecoveryDue(c, now)
  }

  /** The record as `isCircuitOpen` leaves it. */
  function AfterOpenCheck(c: CircuitState, now: nat): (r: CircuitState)
    ensures r.failures == c.failures && r.lastFailure == c.lastFailure
    ensures r.state == HalfOpen <==> c.state == HalfOpen || RecoveryDue(c, now)
    ensures r.state != HalfOpen ==> r.state == c.state
    ensures Consistent(c) ==> Consistent(r)
  {
    if RecoveryDue(c, now) then c.(state := HalfOpen) else c
  }

  /** A run of failures at the given times, with no success in between. */
  function Failures(c: CircuitState, times: seq<nat>): CircuitState
    decreases |times|
  {
    if times == [] then c else AfterFailure(Failures(c, times[..|times| - 1]), times[|times| - 1])
  }

  lemma {:induction false} FailuresCount(c: CircuitState, times: seq<nat>)
    ensures Failures(c, times).failures == c.failures + |times|
    ensures |times| > 0 ==> Failures(c, times).lastFailure == Some(times[|times| - 1])
    ensures |times| > FAILURE_THRESHOLD ==> Failures(c, times).state == Open
    ensures c.state == Closed && c.failures + |times| <= FAILURE_THRESHOLD ==> Failures(c, times).state == Closed
    ensures Consistent(c) ==> Consistent(Failures(c, times))
    decreases |times|
  {
    if times != [] {
      FailuresCount(c, times[..|times| - 1]);
    }
  }

  /** After more than FAILURE_THRESHOLD consecutive failures the circuit
      reports open, and stops doing so only once RECOVERY_TIMEOUT has elapsed
      since the last of them. */
  lemma OpenUntilRecovery(c: CircuitState, times: seq<nat>, now: nat)
    requires |times| > FAILURE_THRESHOLD
    ensures ReportsOpen(Failures(c, times), now)
        <==> times[|times| - 1] == 0 || now - times[|times| - 1] <= RECOVERY_TIMEOUT
  {
    FailuresCount(c, times);
  }

  /** A failure in HALF_OPEN re-opens the circuit, as the count was never reset. */
  lemma HalfOpenFailureReopens(c: CircuitState, now: nat)
    requires Consistent(c) && c.state == HalfOpen
    ensures AfterFailure(c, now).state == Open
  {
  }

  /** The recovery transition happens once: the HALF_OPEN record it leaves
      behind reports closed at any later time until a failure or success. */
  lemma RecoveryHappensOnce(c: CircuitState, now: nat, later: nat)
    requires RecoveryDue(c, now)
    ensures !ReportsOpen(c, now)
    ensures AfterOpenCheck(c, now).state == HalfOpen
    ensures AfterOpenCheck(AfterOpenCheck(c, now), later) == AfterOpenCheck(c, now)
    ensures !ReportsOpen(AfterOpenCheck(c, now), later)
  {
  }

  // ---------------------------------------------------------------------------
  // The shared store

  /** Whether `hmget` finds a truthy `state` field for `p`. */
  predicate Present(store: map<Processor, Fields>, p: Processor) {
    p in store && store[p].state != ""
  }

  predicate StoreValid(store: map<Processor, Fields>) {
    forall p :: p in store ==> WellFormed(store[p]) && (store[p].state != "" ==> Consistent(Decode(store[p])))
  }

  /** The record `getCircuitState` returns for `p`. */
  function Current(store: map<Processor, Fields>, p: Processor): (c: CircuitState)
    requires StoreValid(store)
    ensures Consistent(c)
    ensures !Present(store, p) ==> c == Initial
  {
    if Present(store, p) then Decode(store[p]) else Initial
  }

  /** The store after `getCircuitState(p)`: lazy creation of the initial record. */
  function Initialized(store: map<Processor, Fields>, p: Processor): map<Processor, Fields> {
    if Present(store, p) then store else store[p := Encode(Initial)]
  }

  lemma EncodedStateValid(store: map<Processor, Fields>, p: Processor, c: CircuitState)
    requires StoreValid(store) && Consistent(c)
    ensures StoreValid(store[p := Encode(c)])
    ensures Decode(Encode(c)) == Normalized(c)
  {
    DecodeEncode(c);
  }

  class CircuitStore {
    var store: map<Processor, Fields>

    ghost predicate Valid()
      reads this
    {
      StoreValid(store)
    }

    /** A store in which no processor has a record yet. */
    constructor ()
      ensures Valid() && store == map[]
    {
      store := map[];
    }

    /** `getCircuitState`: decode the record, or create and store `{CLOSED, 0, null}`. */
    method GetCircuitState(p: Processor) returns (c: CircuitState)
      requires Valid()
      modifies this
      ensures Valid()
      ensures c == Current(old(store), p)
      ensures !Present(old(store), p) ==> c == Initial && store == old(store)[p := Encode(Initial)]
      ensures Present(old(store), p) ==> store == old(store)
    {
      if p !in store || store[p].state == "" {
        EncodedStateValid(store, p, Initial);
        store := store[p := Encode(Initial)];
        c := CircuitState(Closed, 0, None);
      } else {
        c := Decode(store[p]);
      }
    }

    /** `setCircuitState`: write the three fields of `p`'s record. */
    method SetCircuitState(p: Processor, c: CircuitState)
      requires Valid() && Consistent(c)
      modifies this
      ensures Valid()
      ensures store == old(store)[p := Encode(c)]
    {
      EncodedStateValid(store, p, c);
      store := store[p := Encode(c)];
    }

    /** `recordFailure`: count one more failure, stamp it, open past the threshold. */
    method RecordFailure(p: Processor, now: nat)
      requires Valid()
      modifies this
      ensures Valid()
      ensures store == old(store)[p := Encode(AfterFailure(Current(old(store), p), now))]
    {
      var c := GetCircuitState(p);
      c := c.(failures := c.failures + 1);
      c := c.(lastFailure := Some(now));
      if c.failures > FAILURE_THRESHOLD {
        c := c.(state := Open);
      }
      assert c == AfterFailure(Current(old(store), p), now);
      SetCircuitState(p, c);
    }

    /** `recordSuccess`: reset to `{CLOSED, 0, null}` whatever the prior state. */
    method RecordSuccess(p: Processor)
      requires Valid()
      modifies this
      ensures Valid()
      ensures store == old(store)[p := Encode(AfterSuccess(Current(old(store), p)))]
      ensures store == old(store)[p := Encode(Initial)]
    {
      var c := GetCircuitState(p);
      c := c.(failures := 0);
      c := c.(state := Closed);
      c := c.(lastFailure := None);
      SetCircuitState(p, c);
    }

    /** `isCircuitOpen`: an OPEN circuit whose recovery timeout has elapsed
        becomes HALF_OPEN and lets the caller through; otherwise only a
        timely OPEN circuit answers true, and the record is left as read. */
    method IsCircuitOpen(p: Processor, now: nat) returns (open: bool)
      requires Valid()
      modifies this
      ensures Valid()
      ensures open == ReportsOpen(Current(old(store), p), now)
      ensures store == CheckedStore(old(store), p, now)
      ensures Current(store, p) == AfterOpenCheck(Current(old(store), p), now)
    {
      var c := GetCircuitState(p);
      if c.state == Open {
        if c.lastFailure.Some? && c.lastFailure.value != 0 && now - c.lastFailure.value > RECOVERY_TIMEOUT {
          c := c.(state := HalfOpen);
          SetCircuitState(p, c);
          DecodeEncode(c);
          return false;
        }
        return true;
      }
      return false;
    }
  }

  /** The store after `isCircuitOpen(p)` at time `now`. */
  function CheckedStore(store: map<Processor, Fields>, p: Processor, now: nat): (r: map<Processor, Fields>)
    requires StoreValid(store)
    ensures StoreValid(r)
    ensures Present(r, p)
    ensures Present(store, p) && !RecoveryDue(Current(store, p), now) ==> r == store
    ensures !Present(store, p) ==> r == store[p := Encode(Initial)]
    ensures RecoveryDue(Current(store, p), now) ==>
              r == store[p := Encode(Current(store, p).(state := HalfOpen))]
    ensures forall q :: q != p && q in store ==> q in r && r[q] == store[q]
  {
    EncodedStateValid(store, p, Initial);
    EncodedStateValid(store, p, AfterOpenCheck(Current(store, p), now));
    if RecoveryDue(Current(store, p), now)
    then store[p := Encode(AfterOpenCheck(Current(store, p), now))]
    else Initialized(store, p)
  }
}
