/**
 * The model side of src/model.rs: the prediction cache in front of the
 * classifier, the mapping from the Python prediction service's HTTP answer to
 * a prediction, and the start-up of that service (a random port and a bounded
 * series of health checks with doubling waits).
 *
 * The HTTP client, the child process and the clock are not modelled: a send
 * either fails with a reason or yields a body, a health probe is a function
 * of its attempt number, and the time is a parameter in milliseconds.
 */
module Model {
  import opened Errors
  import LruTimeCache
  import Shifts

  /** `b"prediction"`, appended to a content hash to form the cache key. */
  const PREDICTION_SUFFIX: Bytes := [0x70, 0x72, 0x65, 0x64, 0x69, 0x63, 0x74, 0x69, 0x6f, 0x6e]

  const PREDICTION_CACHE_CAPACITY: nat := 10
  const PREDICTION_CACHE_TTL_MS: nat := 60_000

  /** The key both `get` and `set` use for a hash. */
  function CacheKey(hash: Bytes): (key: Bytes)
    ensures |key| == |hash| + 10
    ensures key[..|hash|] == hash
    ensures key[|hash|..] == PREDICTION_SUFFIX
  {
    hash + PREDICTION_SUFFIX
  }

  /** Different hashes never share a key, so a hash only finds its own prediction. */
  lemma CacheKeyInjective(h1: Bytes, h2: Bytes)
    requires CacheKey(h1) == CacheKey(h2)
    ensures h1 == h2
  {
    assert h1 == CacheKey(h1)[..|h1|];
  }

  class PredictionCache {
    var cache: LruTimeCache.Cache<Bytes, bool>

    ghost predicate Valid()
      reads this
    {
      && LruTimeCache.Valid(cache)
      && cache.capacity == PREDICTION_CACHE_CAPACITY
      && cache.ttl == PREDICTION_CACHE_TTL_MS
    }

    /** `PredictionCache::new`: empty, 10 entries, 60 s to live. */
    constructor ()
      ensures Valid()
      ensures forall k :: k !in cache.entries
    {
      cache := LruTimeCache.Empty(PREDICTION_CACHE_CAPACITY, PREDICTION_CACHE_TTL_MS);
    }

    /** `get`: look the hash's key up; a lookup always succeeds, with or without a prediction. */
    method Get(hash: Bytes, now: nat) returns (r: Result<Option<bool>>)
      requires Valid()
      modifies this`cache
      ensures Valid()
      ensures var lookup := LruTimeCache.Get(old(cache), CacheKey(hash), now);
              r == Ok(lookup.0) && cache == lookup.1
      ensures r.Ok?
      ensures r.value.Some? <==> LruTimeCache.Live(old(cache), CacheKey(hash), now)
    {
      var lookup := LruTimeCache.Get(cache, CacheKey(hash), now);
      cache := lookup.1;
      r := Ok(lookup.0);
    }

    /** `set`: store the prediction under the hash's key. */
    method Set(hash: Bytes, prediction: bool, now: nat)
      requires Valid()
      modifies this`cache
      ensures Valid()
      ensures cache == LruTimeCache.Insert(old(cache), CacheKey(hash), prediction, now)
    {
      cache := LruTimeCache.Insert(cache, CacheKey(hash), prediction, now);
    }
  }

  /** A prediction stored for a hash is read back for that hash until it expires. */
  method SetThenGet(c: PredictionCache, hash: Bytes, prediction: bool, now: nat, later: nat)
    returns (r: Result<Option<bool>>)
    requires c.Valid()
    requires now <= later < now + PREDICTION_CACHE_TTL_MS
    modifies c
    ensures r == Ok(Some(prediction))
  {
    c.Set(hash, prediction, now);
    LruTimeCache.PutThenGet(old(c.cache), CacheKey(hash), prediction, now, later);
    r := c.Get(hash, later);
  }

  /** A fresh cache answers every lookup with `Ok(None)`, never an error. */
  method LookupInFreshCache(hash: Bytes, now: nat) returns (r: Result<Option<bool>>)
    ensures r == Ok(None)
  {
    var c := new PredictionCache();
    r := c.Get(hash, now);
  }

  const PARSE_FAILURE: string := "Failed to parse python service response as boolean"

  /** The body of a prediction response: exactly "T" or "F", anything else is a plain error. */
  function ParseResponse(body: string): (r: Result<bool>)
    ensures r == Ok(true) <==> body == "T"
    ensures r == Ok(false) <==> body == "F"
    ensures r.Err? <==> body != "T" && body != "F"
    ensures r.Err? ==> r.error == Msg(PARSE_FAILURE)
  {
    if body == "T" then Ok(true)
    else if body == "F" then Ok(false)
    else Err(Msg(PARSE_FAILURE))
  }

  /**
   * What the prediction service answers for a predicted label: the first
   * character of the label's text, "True" or "False" for boolean labels.
   */
  function ServiceBody(predicted: bool): (body: string)
    ensures |body| == 1
  {
    var text := if predicted then "True" else "False";
    text[..1]
  }

  /** The client reads back exactly the label the service predicted. */
  lemma ServiceRoundTrip(predicted: bool)
    ensures ParseResponse(ServiceBody(predicted)) == Ok(predicted)
  {
  }

  /** How a request to the prediction service went. */
  datatype SendOutcome = SendFailed(reason: string) | Responded(body: string)

  /**
   * `PythonModel::predict`'s answer: a failed send is a recoverable error
   * naming the failure; a response is parsed as above.
   */
  function PredictResponse(outcome: SendOutcome): (r: Result<bool>)
    ensures outcome.SendFailed? ==> r == Err(RecoverableError("Failed to predict " + outcome.reason))
    ensures outcome.Responded? ==> r == ParseResponse(outcome.body)
    ensures r.Ok? ==> outcome.Responded? && outcome.body in {"T", "F"}
    ensures r.Err? && r.error.RecoverableError? ==> outcome.SendFailed?
  {
    match outcome
    case SendFailed(reason) => Err(RecoverableError("Failed to predict " + reason))
    case Responded(body) => ParseResponse(body)
  }

  const HEALTH_PROBES: nat := 15

  /**
   * The start-up health check: before probe `i` it waits `2 << i` ms, stops
   * at the first probe that succeeds and gives up after 15. `waits` lists
   * the waits, one per probe made.
   */
  method HealthCheck(probe: nat -> bool) returns (up: bool, waits: seq<nat>)
    ensures 1 <= |waits| <= HEALTH_PROBES
    ensures forall i :: 0 <= i < |waits| ==> waits[i] == Shifts.TwoShl(i)
    ensures forall i :: 0 <= i < |waits| - 1 ==> !probe(i)
    ensures up <==> probe(|waits| - 1)
    ensures up <==> exists i :: 0 <= i < HEALTH_PROBES && probe(i)
    ensures !up ==> |waits| == HEALTH_PROBES
    ensures TotalWait(waits) <= 65534
  {
    up := false;
    waits := [];
    var i := 0;
    while i < HEALTH_PROBES
      invariant 0 <= i <= HEALTH_PROBES
      invariant |waits| == i
      invariant forall j :: 0 <= j < i ==> waits[j] == Shifts.TwoShl(j) && !probe(j)
      invariant !up
    {
      waits := waits + [Shifts.TwoShl(i)];
      if probe(i) {
        up := true;
        HealthCheckWaitBound(waits);
        return;
      }
      i := i + 1;
    }
    HealthCheckWaitBound(waits);
  }

  /** The time spent waiting, in ms. */
  function TotalWait(waits: seq<nat>): nat
  {
    if waits == [] then 0 else TotalWait(waits[..|waits| - 1]) + waits[|waits| - 1]
  }

  /** Waits of `2 << i` before each probe `i` add up to the closed-form sum. */
  lemma {:induction false} ShiftWaitsSum(waits: seq<nat>)
    requires forall i :: 0 <= i < |waits| ==> waits[i] == Shifts.TwoShl(i)
    ensures TotalWait(waits) == Shifts.SumTwoShl(|waits|)
  {
    if waits != [] {
      ShiftWaitsSum(waits[..|waits| - 1]);
    }
  }

  /** However the health check ends, it waited at most 2^16 - 2 ms in total. */
  lemma HealthCheckWaitBound(waits: seq<nat>)
    requires |waits| <= HEALTH_PROBES
    requires forall i :: 0 <= i < |waits| ==> waits[i] == Shifts.TwoShl(i)
    ensures TotalWait(waits) <= 65534
  {
    ShiftWaitsSum(waits);
    Shifts.SumTwoShlClosed(|waits|);
    Shifts.Pow2Monotone(|waits| + 1, 16);
    Shifts.Pow2Sixteen();
  }

  /** `gen_range(10000, 16000)`, with the random draw as a parameter. */
  function PortFromDraw(draw: nat): (port: nat)
    ensures 10000 <= port < 16000
  {
    10000 + draw % 6000
  }

  /**
   * `PythonModel::new`: choose the port, start the service (a failed spawn
   * panics) and wait for it to come up (a service that never does panics).
   * A panic is `None`; otherwise the port the model talks to.
   */
  method StartPythonModel(draw: nat, spawned: bool, probe: nat -> bool) returns (port: Option<nat>)
    ensures port.Some? <==> spawned && exists i :: 0 <= i < HEALTH_PROBES && probe(i)
    ensures port.Some? ==> port.value == PortFromDraw(draw) && 10000 <= port.value < 16000
  {
    var chosen := PortFromDraw(draw);
    if !spawned {
      return None;
    }
    var up, _ := HealthCheck(probe);
    if !up {
      return None;
    }
    port := Some(chosen);
  }
}
