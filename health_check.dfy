/** Health-based processor choice with a read-through cache (src/health-check.ts).

    One combined snapshot of both processors is cached under the key `health`
    for EXPIRE_TIME seconds. `getHealth` chooses from the cached snapshot when
    there is one, and otherwise probes both processors' health endpoints,
    caches what it got and chooses from that. The probe is an oracle value;
    the cache's time-to-live is an expiry timestamp checked against the
    caller's clock `now`. */
module HealthCheck {
  import opened Common

  /** Seconds the cached snapshot lives. */
  const EXPIRE_TIME: nat := 5
  /** The same, in the milliseconds of the clock. */
  const EXPIRE_MS: nat := EXPIRE_TIME * 1000
  /** The response time reported for both processors when probing fails. */
  const PROBE_ERROR_RESPONSE_TIME: int := 500

  datatype HealthCheckResponse = HealthCheckResponse(failing: bool, minResponseTime: int)

  datatype FetchHealthResponse = FetchHealthResponse(defaultProcessor: HealthCheckResponse,
                                                     fallbackProcessor: HealthCheckResponse)

  function HealthOf(h: FetchHealthResponse, p: Processor): HealthCheckResponse {
    if p == Default then h.defaultProcessor else h.fallbackProcessor
  }

  /** The snapshot used when the probe fails: both failing, 500 ms. */
  const ProbeFailed: FetchHealthResponse :=
    FetchHealthResponse(HealthCheckResponse(true, PROBE_ERROR_RESPONSE_TIME),
                        HealthCheckResponse(true, PROBE_ERROR_RESPONSE_TIME))

  /** One health endpoint's response: its `ok` flag, and the body `json()`
      yields (`None` when reading the body rejects). */
  datatype HealthResponse = HealthResponse(ok: bool, body: Option<HealthCheckResponse>)

  /** What probing both processors concurrently yields: two responses, or a
      rejection of either fetch. */
  datatype Probe = Responded(defaultResponse: HealthResponse, fallbackResponse: HealthResponse)
                 | Unreachable

  /** `fetchHealthFromProcessors`: the two bodies when at least one response
      is ok and both bodies parse; any error, including two non-ok responses,
      yields ProbeFailed. Never raises. */
  function FetchHealthFromProcessors(probe: Probe): (h: FetchHealthResponse)
    ensures probe.Unreachable? ==> h == ProbeFailed
    ensures probe.Responded? && !probe.defaultResponse.ok && !probe.fallbackResponse.ok ==> h == ProbeFailed
    ensures h == ProbeFailed
         || (&& probe.Responded?
             && (probe.defaultResponse.ok || probe.fallbackResponse.ok)
             && probe.defaultResponse.body == Some(h.defaultProcessor)
             && probe.fallbackResponse.body == Some(h.fallbackProcessor))
    ensures && probe.Responded?
            && (probe.defaultResponse.ok || probe.fallbackResponse.ok)
            && probe.defaultResponse.body.Some? && probe.fallbackResponse.body.Some?
            ==> h == FetchHealthResponse(probe.defaultResponse.body.value, probe.fallbackResponse.body.value)
  {
    match probe
    case Unreachable => ProbeFailed
    case Responded(d, f) =>
      if !d.ok && !f.ok then ProbeFailed
      else if d.body.None? || f.body.None? then ProbeFailed
      else FetchHealthResponse(d.body.value, f.body.value)
  }

  /** The processor `getHealth` hands back: its name and configured URL. */
  datatype Choice = Choice(name: Processor, url: string)

  /** `chooseProcessor`: a healthy processor over a failing one, `default`
      when both fail, and between two healthy ones the strictly faster
      `default`, ties going to `fallback`. */
  function ChooseProcessor(urls: Urls, h: FetchHealthResponse): (r: Choice)
    ensures r.url == UrlOf(urls, r.name)
    ensures h.defaultProcessor.failing && h.fallbackProcessor.failing ==> r.name == Default
    ensures h.defaultProcessor.failing && !h.fallbackProcessor.failing ==> r.name == Fallback
    ensures !h.defaultProcessor.failing && h.fallbackProcessor.failing ==> r.name == Default
    ensures !h.defaultProcessor.failing && !h.fallbackProcessor.failing ==>
              (r.name == Default <==> h.defaultProcessor.minResponseTime < h.fallbackProcessor.minResponseTime)
  {
    var d, f := h.defaultProcessor, h.fallbackProcessor;
    if d.failing && f.failing then Choice(Default, urls.defaultUrl)
    else if d.failing then Choice(Fallback, urls.fallbackUrl)
    else if f.failing then Choice(Default, urls.defaultUrl)
    else if d.minResponseTime < f.minResponseTime then Choice(Default, urls.defaultUrl)
    else Choice(Fallback, urls.fallbackUrl)
  }

  /** The choice is never worse than the alternative: a failing processor is
      chosen only when both fail, and a healthy one is never slower than a
      healthy alternative. */
  lemma ChoiceIsBest(urls: Urls, h: FetchHealthResponse)
    ensures var p := ChooseProcessor(urls, h).name;
      && (HealthOf(h, p).failing ==> HealthOf(h, Other(p)).failing)
      && (!HealthOf(h, Other(p)).failing ==> HealthOf(h, p).minResponseTime <= HealthOf(h, Other(p)).minResponseTime)
  {
  }

  /** A failed probe routes to `default`. */
  lemma ProbeFailureChoosesDefault(urls: Urls, probe: Probe)
    requires probe.Unreachable? || (!probe.defaultResponse.ok && !probe.fallbackResponse.ok)
    ensures ChooseProcessor(urls, FetchHealthFromProcessors(probe)) == Choice(Default, urls.defaultUrl)
  {
  }

  // ---------------------------------------------------------------------------
  // The cache

  /** The cached snapshot and the instant at which the store expires it. */
  datatype CacheEntry = CacheEntry(health: FetchHealthResponse, expiresAt: int)

  /** `getCachedHealth`: the snapshot while it has not expired. */
  function Lookup(entry: Option<CacheEntry>, now: int): (r: Option<FetchHealthResponse>)
    ensures r.Some? <==> entry.Some? && now < entry.value.expiresAt
    ensures r.Some? ==> r.value == entry.value.health
  {
    if entry.Some? && now < entry.value.expiresAt then Some(entry.value.health) else None
  }

  /** The outcome of one `getHealth`: the choice, the cache afterwards, and
      whether the processors were probed. */
  datatype HealthStep = HealthStep(choice: Choice, entry: Option<CacheEntry>, probed: bool)

  /** `getHealth` on cache contents `entry` at time `now`, with `probe` as
      the answer of the processors if they are asked. */
  function GetHealthStep(urls: Urls, entry: Option<CacheEntry>, now: int, probe: Probe): (r: HealthStep)
    ensures r.choice.url == UrlOf(urls, r.choice.name)
    ensures r.probed <==> Lookup(entry, now).None?
    ensures !r.probed ==> r.entry == entry && r.choice == ChooseProcessor(urls, entry.value.health)
    ensures r.probed ==> r.entry == Some(CacheEntry(FetchHealthFromProcessors(probe), now + EXPIRE_MS))
    ensures r.probed ==> r.choice == ChooseProcessor(urls, FetchHealthFromProcessors(probe))
    ensures Lookup(r.entry, now).Some? && ChooseProcessor(urls, Lookup(r.entry, now).value) == r.choice
  {
    var cached := Lookup(entry, now);
    if cached.Some? then
      HealthStep(ChooseProcessor(urls, cached.value), entry, false)
    else
      var health := FetchHealthFromProcessors(probe);
      HealthStep(ChooseProcessor(urls, health), Some(CacheEntry(health, now + EXPIRE_MS)), true)
  }

  /** One call of `getHealth`: its clock and the probe answer it would get. */
  datatype HealthCall = HealthCall(now: int, probe: Probe)

  /** The result of a series of `getHealth` calls: the cache at the end, how
      many of them probed, and each call's choice. */
  datatype HealthRun = HealthRun(entry: Option<CacheEntry>, probes: nat, choices: seq<Choice>)

  function RunHealthCalls(urls: Urls, entry: Option<CacheEntry>, calls: seq<HealthCall>): (r: HealthRun)
    ensures |r.choices| == |calls|
    decreases |calls|
  {
    if calls == [] then HealthRun(entry, 0, [])
    else
      var step := GetHealthStep(urls, entry, calls[0].now, calls[0].probe);
      var rest := RunHealthCalls(urls, step.entry, calls[1..]);
      HealthRun(rest.entry, rest.probes + (if step.probed then 1 else 0), [step.choice] + rest.choices)
  }

  /** Calls made while a cached snapshot is alive never probe and all give
      the choice that snapshot dictates. */
  lemma {:induction false} LiveEntryIsNeverReprobed(urls: Urls, entry: Option<CacheEntry>, calls: seq<HealthCall>)
    requires entry.Some?
    requires forall i :: 0 <= i < |calls| ==> calls[i].now < entry.value.expiresAt
    ensures RunHealthCalls(urls, entry, calls).probes == 0
    ensures RunHealthCalls(urls, entry, calls).entry == entry
    ensures forall i :: 0 <= i < |calls| ==>
              RunHealthCalls(urls, entry, calls).choices[i] == ChooseProcessor(urls, entry.value.health)
    decreases |calls|
  {
    if calls != [] {
      LiveEntryIsNeverReprobed(urls, entry, calls[1..]);
      var r := RunHealthCalls(urls, entry, calls);
      var rest := RunHealthCalls(urls, entry, calls[1..]);
      forall i | 0 <= i < |calls|
        ensures r.choices[i] == ChooseProcessor(urls, entry.value.health)
      {
        if i > 0 {
          assert r.choices[i] == rest.choices[i - 1];
        }
      }
    }
  }

  /** Calls made one after another within one TTL window starting at `t0`
      probe the processors at most once: the first probe in the window
      caches a snapshot that outlives the window. */
  lemma {:induction false} AtMostOneProbePerWindow(urls: Urls, entry: Option<CacheEntry>, calls: seq<HealthCall>, t0: int)
    requires forall i :: 0 <= i < |calls| ==> t0 <= calls[i].now < t0 + EXPIRE_MS
    ensures RunHealthCalls(urls, entry, calls).probes <= 1
    decreases |calls|
  {
    if calls != [] {
      var step := GetHealthStep(urls, entry, calls[0].now, calls[0].probe);
      if step.probed {
        LiveEntryIsNeverReprobed(urls, step.entry, calls[1..]);
      } else {
        AtMostOneProbePerWindow(urls, entry, calls[1..], t0);
      }
    }
  }

  class HealthCache {
    /** The `health` key of the store, with its expiry. */
    var entry: Option<CacheEntry>

    constructor ()
      ensures entry == None
    {
      entry := None;
    }

    /** `getCachedHealth`. */
    method GetCachedHealth(now: int) returns (r: Option<FetchHealthResponse>)
      ensures r == Lookup(entry, now)
      ensures r.Some? ==> r.value == entry.value.health
    {
      if entry.Some? && now < entry.value.expiresAt {
        r := Some(entry.value.health);
      } else {
        r := None;
      }
    }

    /** `cacheHealthCheck`: store the snapshot, expiring EXPIRE_TIME seconds from now. */
    method CacheHealthCheck(data: FetchHealthResponse, now: int)
      modifies this
      ensures entry == Some(CacheEntry(data, now + EXPIRE_MS))
    {
      entry := Some(CacheEntry(data, now + EXPIRE_MS));
    }

    /** `getHealth`: choose from the live snapshot, or probe, cache and choose.
        `probed` tells whether the processors' health endpoints were called. */
    method GetHealth(urls: Urls, now: int, probe: Probe) returns (choice: Choice, probed: bool)
      modifies this
      ensures HealthStep(choice, entry, probed) == GetHealthStep(urls, old(entry), now, probe)
    {
      var cachedData := GetCachedHealth(now);
      if cachedData.Some? {
        choice := ChooseProcessor(urls, cachedData.value);
        probed := false;
        return;
      }
      var health := FetchHealthFromProcessors(probe);
      CacheHealthCheck(health, now);
      choice := ChooseProcessor(urls, health);
      probed := true;
    }
  }
}
