/**
 * frontend/src/app/services/api/client.js: the API client's response cache
 * (a map from request key to data and expiry time, evicted lazily when a
 * stale entry is read) and its request loop, which retries failed fetches
 * with exponential backoff.
 *
 * Time is a parameter (`Date.now()` at the call and when the response
 * arrives), and so is every fetch: attempt k of a request ends as
 * `outcome(k)`.  Sleeping is recorded as the list of delays slept.
 * JavaScript values are modelled as far as truthiness, which decides
 * whether a cached value is served.
 */
module ApiClient {
  import opened Wrappers
  import Utils

  /** The settings of frontend/src/app/services/api/config.js. */
  const Timeout: int := 10000
  const CacheTtl: int := 5 * 60 * 1000

  datatype RetryConfig = RetryConfig(attempts: int, delayMs: int, backoffFactor: nat)

  const DefaultRetry := RetryConfig(3, 1000, 2)

  /** A JavaScript value, as far as the client looks at it. */
  datatype JsValue =
    | JsUndefined
    | JsNull
    | JsBool(b: bool)
    | JsNumber(n: int)
    | JsString(s: string)
    | JsObject(json: string)

  /** JavaScript truthiness: objects, `true`, non-zero numbers and non-empty strings. */
  predicate Truthy(v: JsValue) {
    match v
    case JsUndefined => false
    case JsNull => false
    case JsBool(b) => b
    case JsNumber(n) => n != 0
    case JsString(s) => s != ""
    case JsObject(_) => true
  }

  datatype CacheEntry = CacheEntry(data: JsValue, expires: int)

  /** The fields the client reads from an error body. */
  datatype ErrorFields = ErrorFields(message: string, code: string)

  /** An error body that parsed as JSON: maybe an `error` object, and its own fields. */
  datatype ErrorBody = ErrorBody(error: Option<ErrorFields>, fields: ErrorFields)

  /** What a request throws: an `APIError` with its status and code, or any other error. */
  datatype JsError = ApiError(message: string, status: int, code: string) | OtherError(message: string)

  /** How one fetch ends. */
  datatype Attempt =
    | Response(data: JsValue)                        // a 2xx answer whose body parsed
    | HttpFailure(status: int, error: ErrorFields)   // a non-2xx answer, its body already parsed
    | Aborted                                        // the timeout fired
    | Failed(message: string)                        // a network error or an unparsable body

  /** How a request ends; `NoReply` is a loop that never ran, which resolves to `undefined`. */
  datatype Reply = Returned(data: JsValue) | Threw(error: JsError) | NoReply

  /**
   * `getCacheKey`: the URL, an underscore and the JSON of the options, so the
   * same URL with the same options always meets the same entry.
   */
  function CacheKey(url: string, optionsJson: string): (key: string)
    ensures url + "_" <= key && key[|url| + 1..] == optionsJson
  {
    url + "_" + optionsJson
  }

  /** The text before the first underscore, or all of it when there is none. */
  function BeforeUnderscore(s: string): (r: string)
    ensures r <= s
  {
    if s == [] || s[0] == '_' then [] else [s[0]] + BeforeUnderscore(s[1..])
  }

  /** A URL without an underscore is what comes before the first underscore of its keys. */
  lemma {:induction false} BeforeUnderscoreOfKey(url: string, optionsJson: string)
    requires forall i :: 0 <= i < |url| ==> url[i] != '_'
    ensures BeforeUnderscore(CacheKey(url, optionsJson)) == url
  {
    if url != [] {
      assert CacheKey(url, optionsJson)[1..] == CacheKey(url[1..], optionsJson);
      BeforeUnderscoreOfKey(url[1..], optionsJson);
    }
  }

  /** For URLs without an underscore, a key names one URL and one options text. */
  lemma CacheKeyInjective(url1: string, json1: string, url2: string, json2: string)
    requires forall i :: 0 <= i < |url1| ==> url1[i] != '_'
    requires forall i :: 0 <= i < |url2| ==> url2[i] != '_'
    requires CacheKey(url1, json1) == CacheKey(url2, json2)
    ensures url1 == url2 && json1 == json2
  {
    BeforeUnderscoreOfKey(url1, json1);
    BeforeUnderscoreOfKey(url2, json2);
  }

  /** What `getCache` answers: the data of an entry that expires after `now`, else null. */
  function Lookup(cache: map<string, CacheEntry>, key: string, now: int): (v: JsValue)
    ensures key in cache && cache[key].expires > now ==> v == cache[key].data
    ensures !(key in cache && cache[key].expires > now) ==> v == JsNull && !Truthy(v)
  {
    if key in cache && cache[key].expires > now then cache[key].data else JsNull
  }

  /** The cache after `getCache`: an entry that is missing or stale is deleted, nothing else changes. */
  function AfterLookup(cache: map<string, CacheEntry>, key: string, now: int): (m: map<string, CacheEntry>)
    ensures key in m <==> key in cache && cache[key].expires > now
    ensures forall k :: k != key ==> (k in m <==> k in cache) && (k in m ==> m[k] == cache[k])
    ensures key in m ==> m[key] == cache[key]
  {
    if key in cache && cache[key].expires > now then cache else cache - {key}
  }

  /** Data set with a TTL is read back until the TTL runs out, and not from then on; other keys read as before. */
  lemma LookupAfterSet(cache: map<string, CacheEntry>, key: string, data: JsValue, setAt: int, ttl: int,
                       other: string, now: int)
    ensures Lookup(cache[key := CacheEntry(data, setAt + ttl)], key, now) == (if now < setAt + ttl then data else JsNull)
    ensures other != key ==> Lookup(cache[key := CacheEntry(data, setAt + ttl)], other, now) == Lookup(cache, other, now)
  {
  }

  /** Reading a key twice at the same time answers the same, and the second read changes nothing. */
  lemma LookupStable(cache: map<string, CacheEntry>, key: string, now: int)
    ensures Lookup(AfterLookup(cache, key, now), key, now) == Lookup(cache, key, now)
    ensures AfterLookup(AfterLookup(cache, key, now), key, now) == AfterLookup(cache, key, now)
  {
  }

  /** `parseErrorResponse`: the body's `error` object or the body itself; for an unparsable body the status text. */
  function ParseErrorResponse(body: Option<ErrorBody>, statusText: string): (e: ErrorFields)
    ensures body.None? ==> e == ErrorFields(if statusText == "" then "Unknown error" else statusText, "unknown_error")
    ensures body.Some? && body.value.error.Some? ==> e == body.value.error.value
    ensures body.Some? && body.value.error.None? ==> e == body.value.fields
  {
    match body
    case None => ErrorFields(if statusText == "" then "Unknown error" else statusText, "unknown_error")
    case Some(b) => b.error.GetOr(b.fields)
  }

  /** The `APIError` a non-2xx answer becomes: its message, or "HTTP <status>" when the message is empty. */
  function HttpError(status: int, error: ErrorFields): (e: JsError)
    ensures e.ApiError? && e.status == status && e.code == error.code
    ensures error.message != "" ==> e.message == error.message
    ensures error.message == "" ==> e.message == "HTTP " + Utils.Itoa(status)
  {
    ApiError(if error.message == "" then "HTTP " + Utils.Itoa(status) else error.message, status, error.code)
  }

  const TimeoutError: JsError := ApiError("Request timeout", 408, "timeout")

  function Pow(b: nat, e: nat): nat
  {
    if e == 0 then 1 else b * Pow(b, e - 1)
  }

  /** The delay after failed attempt k: delayMs times backoffFactor to the power k - 1. */
  function Delay(cfg: RetryConfig, attempt: nat): int
    requires attempt >= 1
  {
    cfg.delayMs * Pow(cfg.backoffFactor, attempt - 1)
  }

  /**
   * The request loop from attempt k on: a response is returned; an HTTP
   * error or a timeout is thrown at once; any other failure is thrown on
   * the last attempt and otherwise retried.
   */
  function Retry(cfg: RetryConfig, outcome: nat -> Attempt, attempt: nat): Reply
    requires attempt >= 1
    decreases cfg.attempts - attempt
  {
    if attempt > cfg.attempts then NoReply
    else match outcome(attempt)
      case Response(data) => Returned(data)
      case HttpFailure(status, error) => Threw(HttpError(status, error))
      case Aborted => Threw(TimeoutError)
      case Failed(message) =>
        if attempt == cfg.attempts then Threw(OtherError(message))
        else Retry(cfg, outcome, attempt + 1)
  }

  /** The delays the loop sleeps from attempt k on: one after each retried failure. */
  function Delays(cfg: RetryConfig, outcome: nat -> Attempt, attempt: nat): seq<int>
    requires attempt >= 1
    decreases cfg.attempts - attempt
  {
    if attempt > cfg.attempts then []
    else match outcome(attempt)
      case Failed(_) =>
        if attempt == cfg.attempts then [] else [Delay(cfg, attempt)] + Delays(cfg, outcome, attempt + 1)
      case _ => []
  }

  /** The loop of `request`, proved to end as `Retry` says after sleeping the `Delays`. */
  method RetryLoop(cfg: RetryConfig, outcome: nat -> Attempt) returns (reply: Reply, delays: seq<int>)
    ensures reply == Retry(cfg, outcome, 1) && delays == Delays(cfg, outcome, 1)
  {
    delays := [];
    var attempt := 1;
    while attempt <= cfg.attempts
      invariant attempt >= 1
      invariant Retry(cfg, outcome, 1) == Retry(cfg, outcome, attempt)
      invariant Delays(cfg, outcome, 1) == delays + Delays(cfg, outcome, attempt)
      decreases cfg.attempts - attempt
    {
      match outcome(attempt) {
        case Response(data) =>
          return Returned(data), delays;
        case HttpFailure(status, error) =>
          return Threw(HttpError(status, error)), delays;
        case Aborted =>
          return Threw(TimeoutError), delays;
        case Failed(message) =>
          if attempt == cfg.attempts {
            return Threw(OtherError(message)), delays;
          }
          delays := delays + [Delay(cfg, attempt)];
      }
      attempt := attempt + 1;
    }
    return NoReply, delays;
  }

  /**
   * From attempt k, the loop sleeps fewer times than it has attempts left,
   * and the i-th sleep is the backoff delay of attempt k + i.
   */
  lemma {:induction false} DelaysAreBackoff(cfg: RetryConfig, outcome: nat -> Attempt, attempt: nat)
    requires attempt >= 1
    ensures var d := Delays(cfg, outcome, attempt);
      (|d| == 0 || |d| < cfg.attempts - attempt + 1) &&
      forall i :: 0 <= i < |d| ==> d[i] == Delay(cfg, attempt + i)
    decreases cfg.attempts - attempt
  {
    if attempt <= cfg.attempts && outcome(attempt).Failed? && attempt < cfg.attempts {
      DelaysAreBackoff(cfg, outcome, attempt + 1);
    }
  }

  /** With the configured retries: at most two sleeps, of one and then two seconds. */
  lemma DefaultBackoff(outcome: nat -> Attempt)
    ensures var d := Delays(DefaultRetry, outcome, 1);
      |d| <= 2 && (|d| >= 1 ==> d[0] == 1000) && (|d| == 2 ==> d[1] == 2000)
  {
    DelaysAreBackoff(DefaultRetry, outcome, 1);
  }

  /**
   * A request returns data exactly when some attempt within the limit got a
   * response and every attempt before it failed in a retryable way.
   */
  lemma {:induction false} ReturnsFirstResponse(cfg: RetryConfig, outcome: nat -> Attempt, attempt: nat, data: JsValue)
    requires attempt >= 1
    ensures Retry(cfg, outcome, attempt) == Returned(data) <==>
      exists k :: attempt <= k <= cfg.attempts && outcome(k) == Response(data) &&
                  forall j :: attempt <= j < k ==> outcome(j).Failed?
    decreases cfg.attempts - attempt
  {
    if attempt <= cfg.attempts {
      if outcome(attempt).Failed? && attempt < cfg.attempts {
        ReturnsFirstResponse(cfg, outcome, attempt + 1, data);
        if Retry(cfg, outcome, attempt) == Returned(data) {
          var k :| attempt + 1 <= k <= cfg.attempts && outcome(k) == Response(data) &&
                   forall j :: attempt + 1 <= j < k ==> outcome(j).Failed?;
          assert forall j :: attempt <= j < k ==> outcome(j).Failed?;
        }
      }
    }
  }

  /** An `APIError` (an HTTP error or the timeout) is thrown at once: no retry, no sleep. */
  lemma ApiErrorsAreNotRetried(cfg: RetryConfig, outcome: nat -> Attempt, attempt: nat)
    requires 1 <= attempt <= cfg.attempts
    requires outcome(attempt).HttpFailure? || outcome(attempt).Aborted?
    ensures Retry(cfg, outcome, attempt).Threw? && Retry(cfg, outcome, attempt).error.ApiError?
    ensures Delays(cfg, outcome, attempt) == []
  {
  }

  /** `request` treats a missing, empty or "GET" method as a GET. */
  predicate IsGet(verb: Option<string>) {
    verb.None? || verb.value == "" || verb.value == "GET"
  }

  /** What one request does: its reply, whether it fetched, the delays slept and the cache it leaves. */
  datatype RequestStep = RequestStep(reply: Reply, fetched: bool, delays: seq<int>, cache: map<string, CacheEntry>)

  /**
   * `request` for one cache key: a GET whose lookup is truthy is answered
   * from the cache without a fetch; otherwise the loop runs, and a GET that
   * gets data stores it for the default TTL from the time the response came.
   */
  function RequestSpec(cache: map<string, CacheEntry>, key: string, isGet: bool, now: int, cfg: RetryConfig,
                       outcome: nat -> Attempt, responseTime: int): RequestStep
  {
    if isGet && Truthy(Lookup(cache, key, now)) then
      RequestStep(Returned(Lookup(cache, key, now)), false, [], cache)
    else
      var looked := if isGet then AfterLookup(cache, key, now) else cache;
      var reply := Retry(cfg, outcome, 1);
      RequestStep(reply, cfg.attempts >= 1, Delays(cfg, outcome, 1),
        if isGet && reply.Returned? then looked[key := CacheEntry(reply.data, responseTime + CacheTtl)] else looked)
  }

  /** A request that is not a GET neither reads nor writes the cache. */
  lemma NonGetLeavesCache(cache: map<string, CacheEntry>, key: string, now: int, cfg: RetryConfig,
                          outcome: nat -> Attempt, responseTime: int)
    ensures RequestSpec(cache, key, false, now, cfg, outcome, responseTime).cache == cache
    ensures RequestSpec(cache, key, false, now, cfg, outcome, responseTime).reply == Retry(cfg, outcome, 1)
  {
  }

  /** A request only changes its own key's entry. */
  lemma RequestTouchesOnlyItsKey(cache: map<string, CacheEntry>, key: string, isGet: bool, now: int, cfg: RetryConfig,
                                 outcome: nat -> Attempt, responseTime: int, other: string)
    requires other != key
    ensures var c := RequestSpec(cache, key, isGet, now, cfg, outcome, responseTime).cache;
      (other in c <==> other in cache) && (other in cache ==> c[other] == cache[other])
  {
  }

  /**
   * A GET that fetched truthy data is answered from the cache, with no
   * fetch, by the same GET made before the TTL runs out, whatever the
   * network would do then.
   */
  lemma RepeatedGetServedFromCache(cache: map<string, CacheEntry>, key: string, now: int, cfg: RetryConfig,
                                   outcome: nat -> Attempt, responseTime: int,
                                   later: int, laterOutcome: nat -> Attempt, laterResponse: int)
    requires RequestSpec(cache, key, true, now, cfg, outcome, responseTime).fetched
    requires RequestSpec(cache, key, true, now, cfg, outcome, responseTime).reply.Returned?
    requires Truthy(RequestSpec(cache, key, true, now, cfg, outcome, responseTime).reply.data)
    requires later < responseTime + CacheTtl
    ensures var first := RequestSpec(cache, key, true, now, cfg, outcome, responseTime);
      RequestSpec(first.cache, key, true, later, cfg, laterOutcome, laterResponse) ==
        RequestStep(first.reply, false, [], first.cache)
  {
  }

  /** A falsy value in the cache (0, "", false, null) is never served: the request fetches again. */
  lemma FalsyCachedValueRefetched(cache: map<string, CacheEntry>, key: string, now: int, cfg: RetryConfig,
                                  outcome: nat -> Attempt, responseTime: int)
    requires key in cache && cache[key].expires > now && !Truthy(cache[key].data)
    requires cfg.attempts >= 1
    ensures RequestSpec(cache, key, true, now, cfg, outcome, responseTime).fetched
  {
  }

  /** `get`: the endpoint, followed by "?" and the query only when the encoded query is not empty. */
  function GetUrl(endpoint: string, query: string): (url: string)
    ensures query == "" ==> url == endpoint
    ensures query != "" ==> url == endpoint + "?" + query && url[..|endpoint|] == endpoint && url[|endpoint|] == '?'
  {
    if query == "" then endpoint else endpoint + "?" + query
  }

  /** `APIClient`: the configured base URL, timeout and retries, and the response cache. */
  class Client {
    var cache: map<string, CacheEntry>
    const baseUrl: string
    const timeout: int
    const retry: RetryConfig

    /** The constructor: the settings of the API configuration and an empty cache. */
    constructor (baseUrl: string)
      ensures cache == map[] && this.baseUrl == baseUrl && timeout == Timeout && retry == DefaultRetry
    {
      cache := map[];
      this.baseUrl := baseUrl;
      timeout := Timeout;
      retry := DefaultRetry;
    }

    /** `setCache`: the entry expires `ttl` after `now`, the default TTL when none is given. */
    method SetCache(key: string, data: JsValue, ttl: Option<int>, now: int)
      modifies this
      ensures cache == old(cache)[key := CacheEntry(data, now + ttl.GetOr(CacheTtl))]
    {
      cache := cache[key := CacheEntry(data, now + ttl.GetOr(CacheTtl))];
    }

    /** `getCache`: answers `Lookup`, deleting the entry when it is missing or stale. */
    method GetCache(key: string, now: int) returns (data: JsValue)
      modifies this
      ensures data == Lookup(old(cache), key, now)
      ensures cache == AfterLookup(old(cache), key, now)
    {
      if key in cache && cache[key].expires > now {
        return cache[key].data;
      }
      cache := cache - {key};
      return JsNull;
    }

    /** `clearCache`. */
    method ClearCache()
      modifies this
      ensures cache == map[]
    {
      cache := map[];
    }

    /**
     * `request(endpoint, options)`: `verb` is the options' method and
     * `optionsJson` their JSON text; `now` is the time of the call and
     * `responseTime` the time the response arrives.
     */
    method Request(endpoint: string, verb: Option<string>, optionsJson: string, now: int,
                   outcome: nat -> Attempt, responseTime: int)
      returns (reply: Reply, fetched: bool, delays: seq<int>)
      modifies this
      ensures RequestStep(reply, fetched, delays, cache) ==
        RequestSpec(old(cache), CacheKey(baseUrl + endpoint, optionsJson), IsGet(verb), now, retry, outcome, responseTime)
    {
      var key := CacheKey(baseUrl + endpoint, optionsJson);
      var isGet := IsGet(verb);
      if isGet {
        var cached := GetCache(key, now);
        if Truthy(cached) {
          return Returned(cached), false, [];
        }
      }
      reply, delays := RetryLoop(retry, outcome);
      fetched := retry.attempts >= 1;
      if isGet && reply.Returned? {
        SetCache(key, reply.data, None, responseTime);
      }
    }

    /** `get(endpoint, params)`: a GET of `GetUrl` with no options, so its key ends in "_{}". */
    method Get(endpoint: string, query: string, now: int, outcome: nat -> Attempt, responseTime: int)
      returns (reply: Reply, fetched: bool, delays: seq<int>)
      modifies this
      ensures RequestStep(reply, fetched, delays, cache) ==
        RequestSpec(old(cache), CacheKey(baseUrl + GetUrl(endpoint, query), "{}"), true, now, retry, outcome, responseTime)
    {
      reply, fetched, delays := Request(GetUrl(endpoint, query), None, "{}", now, outcome, responseTime);
    }
  }
}
