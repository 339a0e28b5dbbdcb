/**
 * backend/internal/interfaces/middleware/rate_limiter.go: the Redis-counter
 * limiter (its defaults, counter arithmetic, client key and the middleware's
 * decision), the rule table of the advanced limiter and the choice of rule
 * for a request, and the in-memory sliding-window limiter.
 *
 * Time is an integer number of nanoseconds since Go's zero time (January 1
 * of year 1, UTC); durations are nanoseconds.
 */
module RateLimiter {
  import opened Wrappers
  import AppErrors
  import Utils

  type Duration = int

  const Minute: Duration := 60 * 1_000_000_000

  /** Seconds from Go's zero time to the Unix epoch. */
  const UnixToInternal: int := 62135596800

  datatype RateLimiterConfig = RateLimiterConfig(requestsPerMinute: int, windowSize: Duration, keyPrefix: string)

  /** `NewRateLimiter`: zero settings become 100 requests, a one-minute window and the prefix "rate_limit". */
  function NewRateLimiter(config: RateLimiterConfig): (c: RateLimiterConfig)
    ensures c.requestsPerMinute == if config.requestsPerMinute == 0 then 100 else config.requestsPerMinute
    ensures c.windowSize == if config.windowSize == 0 then Minute else config.windowSize
    ensures c.keyPrefix == if config.keyPrefix == "" then "rate_limit" else config.keyPrefix
  {
    RateLimiterConfig(
      if config.requestsPerMinute == 0 then 100 else config.requestsPerMinute,
      if config.windowSize == 0 then Minute else config.windowSize,
      if config.keyPrefix == "" then "rate_limit" else config.keyPrefix)
  }

  /** `time.Time.Truncate(d)` on a time at or after the zero time: rounded down to a multiple of d, unchanged for d <= 0. */
  function Truncate(t: int, d: Duration): int
    requires t >= 0
  {
    if d <= 0 then t else t - t % d
  }

  /** The answer of the Redis counter (`IncrementWithExpiry`): the count after incrementing, or an error. */
  datatype Counter = Counted(count: int) | CounterFailed(error: AppErrors.Error)

  datatype RateCheck = RateCheck(allowed: bool, remaining: int, resetTime: int, err: Option<AppErrors.Error>)

  /** The Redis key of a client: the prefix and the client id joined by a colon. */
  function CounterKey(config: RateLimiterConfig, clientId: string): string {
    config.keyPrefix + ":" + clientId
  }

  /**
   * `checkRateLimit`: the reset time is the end of the current window; the
   * remaining allowance is the limit minus the count, floored at 0; the
   * request is allowed while the count has not passed the limit.
   */
  function CheckRateLimit(config: RateLimiterConfig, now: int, counter: Counter): (r: RateCheck)
    requires now >= 0
    ensures r.resetTime == Truncate(now, config.windowSize) + config.windowSize
    ensures config.windowSize > 0 ==> now < r.resetTime <= now + config.windowSize
    ensures counter.CounterFailed? ==> r == RateCheck(false, 0, r.resetTime, Some(counter.error))
    ensures counter.Counted? ==> r.err == None
    ensures counter.Counted? ==> r.remaining == Utils.MaxInt(0, config.requestsPerMinute - counter.count)
    ensures counter.Counted? ==> (r.allowed <==> counter.count <= config.requestsPerMinute)
  {
    var resetTime := Truncate(now, config.windowSize) + config.windowSize;
    match counter
    case CounterFailed(e) => RateCheck(false, 0, resetTime, Some(e))
    case Counted(count) =>
      var remaining := if config.requestsPerMinute - count < 0 then 0 else config.requestsPerMinute - count;
      RateCheck(count <= config.requestsPerMinute, remaining, resetTime, None)
  }

  /** The remaining allowance shrinks by one per counted request until it reaches 0, and the request is rejected exactly then after the limit. */
  lemma RemainingCountsDown(config: RateLimiterConfig, now: int, count: int)
    requires now >= 0 && config.requestsPerMinute >= 0 && count >= 1
    ensures var a := CheckRateLimit(config, now, Counted(count));
            var b := CheckRateLimit(config, now, Counted(count + 1));
      (a.remaining > 0 ==> b.remaining == a.remaining - 1) &&
      (a.remaining == 0 ==> b.remaining == 0 && !b.allowed)
  {
  }

  /** `time.Time.Unix()`: whole seconds since the Unix epoch. */
  function Unix(t: int): int
    requires t >= 0
  {
    t / 1_000_000_000 - UnixToInternal
  }

  /** What the middleware does with a request. */
  datatype Decision =
    | PassWithoutHeaders
    | Pass(headers: seq<(string, string)>)
    | Reject(headers: seq<(string, string)>, status: int)

  /** The three rate-limit headers. */
  function RateHeaders(limit: int, check: RateCheck): seq<(string, string)>
    requires check.resetTime >= 0
  {
    [("X-RateLimit-Limit", Utils.Itoa(limit)),
     ("X-RateLimit-Remaining", Utils.Itoa(check.remaining)),
     ("X-RateLimit-Reset", Utils.Itoa(Unix(check.resetTime)))]
  }

  /**
   * `RateLimiter.Middleware`: a counter error lets the request through with no
   * header; otherwise the headers are set and a request over the limit is
   * answered through `response.Error` with a plain error, which yields status
   * 500.
   */
  function Middleware(config: RateLimiterConfig, now: int, counter: Counter): (d: Decision)
    requires now >= 0 && config.windowSize >= 0
    ensures counter.CounterFailed? <==> d.PassWithoutHeaders?
    ensures d.Reject? <==> counter.Counted? && counter.count > config.requestsPerMinute
    ensures d.Reject? ==> d.status == 500
    ensures d.Pass? || d.Reject? ==> |d.headers| == 3 && d.headers[0] == ("X-RateLimit-Limit", Utils.Itoa(config.requestsPerMinute))
    ensures d.Pass? || d.Reject? ==> d.headers == RateHeaders(config.requestsPerMinute, CheckRateLimit(config, now, counter))
  {
    var check := CheckRateLimit(config, now, counter);
    if check.err.Some? then PassWithoutHeaders
    else
      var headers := RateHeaders(config.requestsPerMinute, check);
      if !check.allowed then Reject(headers, AppErrors.GetStatusCode(AppErrors.Plain("rate limit exceeded")))
      else Pass(headers)
  }

  /**
   * `getClientID`: the first non-empty of X-Forwarded-For, X-Real-IP and the
   * connection's client IP, a colon, and the user agent cut to 50 characters.
   */
  function ClientId(forwardedFor: string, realIp: string, clientIp: string, userAgent: string): (id: string)
    ensures var ip := if forwardedFor != "" then forwardedFor else if realIp != "" then realIp else clientIp;
      exists ua :: id == ip + ":" + ua && |ua| <= 50 && ua <= userAgent &&
                   (|userAgent| <= 50 ==> ua == userAgent)
    ensures var ip := if forwardedFor != "" then forwardedFor else if realIp != "" then realIp else clientIp;
      |userAgent| > 50 ==> id == ip + ":" + userAgent[..50]
  {
    var ip := if forwardedFor != "" then forwardedFor else if realIp != "" then realIp else clientIp;
    var ua := if |userAgent| > 50 then userAgent[..50] else userAgent;
    ip + ":" + ua
  }

  // ---------------------------------------------------------------------------
  // The advanced limiter's rule table and the rule chosen for a request.

  const UploadKey := "/v1/upload"
  const SearchKey := "/v1/search"
  const MenuKey := "/v1/menu"
  const PostKey := "POST:/v1/"
  const PutKey := "PUT:/v1/"
  const DeleteKey := "DELETE:/v1/"

  /** The rules `NewAdvancedRateLimiter` installs. */
  const BuiltInRules: map<string, RateLimiterConfig> := map[
    UploadKey := RateLimiterConfig(10, Minute, "rate_limit_upload"),
    SearchKey := RateLimiterConfig(50, Minute, "rate_limit_search"),
    MenuKey := RateLimiterConfig(200, Minute, "rate_limit_menu"),
    PostKey := RateLimiterConfig(30, Minute, "rate_limit_post"),
    PutKey := RateLimiterConfig(30, Minute, "rate_limit_put"),
    DeleteKey := RateLimiterConfig(20, Minute, "rate_limit_delete")]

  const DefaultRule := RateLimiterConfig(100, Minute, "rate_limit_default")

  /**
   * `order` is the order in which a `range` over the rule map visits the
   * keys, which Go leaves unspecified: every key, and nothing else.
   */
  predicate ListsKeys(order: seq<string>, rules: map<string, RateLimiterConfig>) {
    (forall k :: 0 <= k < |order| ==> order[k] in rules) && (forall key :: key in rules ==> key in order)
  }

  /** A `METHOD:prefix` key that applies: it names the method and the path starts with its prefix. */
  predicate MethodPrefixRule(key: string, verb: string, path: string) {
    |key| > |verb| + 1 && key[..|verb| + 1] == verb + ":" && key[|verb| + 1..] <= path
  }

  /** A path-prefix key that applies: it does not end in a colon and the path starts with it. */
  predicate PathPrefixRule(key: string, path: string) {
    |key| > 0 && key[|key| - 1] != ':' && key <= path
  }

  /** The first key, in iteration order, of the method-prefix loop that applies. */
  function FirstMethodPrefix(order: seq<string>, verb: string, path: string): (r: Option<string>)
    ensures r.Some? ==> r.value in order && MethodPrefixRule(r.value, verb, path)
    ensures r.None? ==> forall k :: 0 <= k < |order| ==> !MethodPrefixRule(order[k], verb, path)
  {
    if order == [] then None
    else if MethodPrefixRule(order[0], verb, path) then Some(order[0])
    else FirstMethodPrefix(order[1..], verb, path)
  }

  /** The first key, in iteration order, of the path-prefix loop that applies. */
  function FirstPathPrefix(order: seq<string>, path: string): (r: Option<string>)
    ensures r.Some? ==> r.value in order && PathPrefixRule(r.value, path)
    ensures r.None? ==> forall k :: 0 <= k < |order| ==> !PathPrefixRule(order[k], path)
  {
    if order == [] then None
    else if PathPrefixRule(order[0], path) then Some(order[0])
    else FirstPathPrefix(order[1..], path)
  }

  /**
   * The rule for a request, by precedence: the exact `METHOD:path` key, a
   * `METHOD:` prefix key, the exact path key, a path prefix key, else the
   * default.  This is the intended reading of `getRuleForRequest`, with the
   * slices of the method-prefix test replaced by bounds-safe prefix tests.
   */
  function RuleFor(rules: map<string, RateLimiterConfig>, default: RateLimiterConfig, order: seq<string>,
                   verb: string, path: string): RateLimiterConfig
    requires forall k :: 0 <= k < |order| ==> order[k] in rules
  {
    if verb + ":" + path in rules then rules[verb + ":" + path]
    else match FirstMethodPrefix(order, verb, path)
      case Some(key) => rules[key]
      case None =>
        if path in rules then rules[path]
        else match FirstPathPrefix(order, path)
          case Some(key) => rules[key]
          case None => default
  }

  /** `getRuleForRequest`, its two loops over the rule map written out, proved to choose `RuleFor`. */
  method GetRuleForRequest(rules: map<string, RateLimiterConfig>, default: RateLimiterConfig, order: seq<string>,
                           verb: string, path: string) returns (rule: RateLimiterConfig)
    requires forall k :: 0 <= k < |order| ==> order[k] in rules
    ensures rule == RuleFor(rules, default, order, verb, path)
  {
    var methodPath := verb + ":" + path;
    if methodPath in rules {
      return rules[methodPath];
    }
    var k := 0;
    while k < |order|
      invariant 0 <= k <= |order|
      invariant FirstMethodPrefix(order, verb, path) == FirstMethodPrefix(order[k..], verb, path)
    {
      var prefix := order[k];
      if MethodPrefixRule(prefix, verb, path) {
        return rules[prefix];
      }
      assert order[k..][1..] == order[k + 1..];
      k := k + 1;
    }
    if path in rules {
      return rules[path];
    }
    k := 0;
    while k < |order|
      invariant 0 <= k <= |order|
      invariant FirstPathPrefix(order, path) == FirstPathPrefix(order[k..], path)
    {
      var prefix := order[k];
      if |prefix| > 0 && prefix[|prefix| - 1] != ':' && |path| >= |prefix| && path[..|prefix|] == prefix {
        return rules[prefix];
      }
      assert order[k..][1..] == order[k + 1..];
      k := k + 1;
    }
    return default;
  }

  /** How the method-prefix loop as written ends: a key applies, none does, or a slice is out of range. */
  datatype Scan = Match(key: string) | NoMatch | SlicePanic

  /**
   * The method-prefix loop as written: it slices `prefix[:len(method)+1]`
   * before checking the key's length, and `path[:len(prefix)-len(method)-1]`
   * without checking the path's length.
   */
  function ScanAsWritten(order: seq<string>, verb: string, path: string): Scan {
    if order == [] then NoMatch
    else
      var prefix := order[0];
      if |prefix| < |verb| + 1 then SlicePanic
      else if prefix[..|verb| + 1] == verb + ":" && |prefix| > |verb| + 1 then
        if |path| < |prefix| - |verb| - 1 then SlicePanic
        else if path[..|prefix| - |verb| - 1] == prefix[|verb| + 1..] then Match(prefix)
        else ScanAsWritten(order[1..], verb, path)
      else ScanAsWritten(order[1..], verb, path)
  }

  /** Where the loop as written does not panic, it picks the key the bounds-safe loop picks. */
  lemma {:induction false} ScanAsWrittenAgrees(order: seq<string>, verb: string, path: string)
    requires ScanAsWritten(order, verb, path) != SlicePanic
    ensures ScanAsWritten(order, verb, path) ==
      match FirstMethodPrefix(order, verb, path) case Some(k) => Match(k) case None => NoMatch
  {
    if order != [] {
      var prefix := order[0];
      if prefix[..|verb| + 1] == verb + ":" && |prefix| > |verb| + 1 {
        var n := |prefix| - |verb| - 1;
        assert prefix[|verb| + 1..] <= path <==> path[..n] == prefix[|verb| + 1..];
        if path[..n] != prefix[|verb| + 1..] {
          ScanAsWrittenAgrees(order[1..], verb, path);
        }
      } else {
        ScanAsWrittenAgrees(order[1..], verb, path);
      }
    }
  }

  /** Every built-in key other than the POST one is at least five characters long and does not start with "POST:". */
  lemma NotPostKey(key: string)
    requires key in BuiltInRules && key != PostKey
    ensures |key| >= 5 && key[..5] != "POST:"
  {
    assert key == UploadKey || key == SearchKey || key == MenuKey || key == PutKey || key == DeleteKey;
    assert key[..5][0] == key[0] && key[..5][1] == key[1];
    assert key[0] != 'P' || key[1] != 'O';
  }

  /** A POST to "/" never matches a rule key but reaches the method-prefix loop, which then slices "/"[:4]. */
  lemma {:induction false} PostToRootScanPanics(order: seq<string>)
    requires forall k :: 0 <= k < |order| ==> order[k] in BuiltInRules
    requires PostKey in order
    ensures ScanAsWritten(order, "POST", "/") == SlicePanic
  {
    var prefix := order[0];
    if prefix == PostKey {
      assert prefix[..5] == "POST:";
    } else {
      NotPostKey(prefix);
      assert PostKey in order[1..];
      PostToRootScanPanics(order[1..]);
    }
  }

  /** `getRuleForRequest` as written: None where it panics. */
  function RuleAsWritten(rules: map<string, RateLimiterConfig>, default: RateLimiterConfig, order: seq<string>,
                         verb: string, path: string): (r: Option<RateLimiterConfig>)
    requires forall k :: 0 <= k < |order| ==> order[k] in rules
    ensures r.Some? ==> r.value == RuleFor(rules, default, order, verb, path)
  {
    if verb + ":" + path in rules then Some(rules[verb + ":" + path])
    else
      var scan := ScanAsWritten(order, verb, path);
      if scan == SlicePanic then None
      else
        ScanAsWrittenAgrees(order, verb, path);
        Some(RuleFor(rules, default, order, verb, path))
  }

  /** With the built-in rules, a POST to "/" panics in whatever order the map is visited, where the intended rule is the default. */
  lemma PostToRootPanics(order: seq<string>)
    requires ListsKeys(order, BuiltInRules)
    ensures RuleAsWritten(BuiltInRules, DefaultRule, order, "POST", "/") == None
    ensures RuleFor(BuiltInRules, DefaultRule, order, "POST", "/") == DefaultRule
  {
    assert "POST" + ":" + "/" !in BuiltInRules;
    PostToRootScanPanics(order);
    assert "/" !in BuiltInRules;
    forall k | 0 <= k < |order|
      ensures !MethodPrefixRule(order[k], "POST", "/") && !PathPrefixRule(order[k], "/")
    {
      assert |order[k]| >= 8;
    }
  }

  /** The requests of the sliding window: the timestamps strictly after the cutoff, in their order. */
  function Live(ts: seq<int>, cutoff: int): (r: seq<int>)
    ensures |r| <= |ts|
    ensures forall t :: t in r <==> t in ts && t > cutoff
  {
    if ts == [] then []
    else
      var last := ts[|ts| - 1];
      assert ts == ts[..|ts| - 1] + [last];
      var r := Live(ts[..|ts| - 1], cutoff);
      if last > cutoff then r + [last] else r
  }

  /** Filtering twice with the same cutoff keeps what the first pass kept. */
  lemma {:induction false} LiveIdempotent(ts: seq<int>, cutoff: int)
    ensures Live(Live(ts, cutoff), cutoff) == Live(ts, cutoff)
  {
    if ts != [] {
      var last := ts[|ts| - 1];
      LiveIdempotent(ts[..|ts| - 1], cutoff);
      var r := Live(ts[..|ts| - 1], cutoff);
      if last > cutoff {
        assert (r + [last])[..|r + [last]| - 1] == r;
      }
    }
  }

  /** Filtering with a cutoff and then with a later one is filtering with the later one. */
  lemma {:induction false} LiveLaterCutoff(ts: seq<int>, early: int, late: int)
    requires early <= late
    ensures Live(Live(ts, early), late) == Live(ts, late)
  {
    if ts != [] {
      var last := ts[|ts| - 1];
      LiveLaterCutoff(ts[..|ts| - 1], early, late);
      var r := Live(ts[..|ts| - 1], early);
      if last > early {
        assert (r + [last])[..|r + [last]| - 1] == r;
      }
    }
  }

  /** Appending a timestamp after the cutoff appends it to the window. */
  lemma LiveSnoc(ts: seq<int>, t: int, cutoff: int)
    ensures Live(ts + [t], cutoff) == if t > cutoff then Live(ts, cutoff) + [t] else Live(ts, cutoff)
  {
    assert (ts + [t])[..|ts + [t]| - 1] == ts;
  }

  /** The plain error the in-memory limiter answers with; it is not an AppError, so the status is 500. */
  const SimpleRejection: AppErrors.Error := AppErrors.Plain("rate limit exceeded")

  /**
   * `SimpleRateLimiter`: per client IP, the timestamps of its admitted
   * requests; `limit` requests are admitted in any window of `window`
   * nanoseconds.
   */
  class SimpleRateLimiter {
    var requests: map<string, seq<int>>
    const limit: int
    const window: Duration

    /** No IP keeps an empty list, and none more than `limit` timestamps. */
    ghost predicate Valid()
      reads this
    {
      forall ip :: ip in requests ==> 0 < |requests[ip]| <= limit
    }

    /** `NewSimpleRateLimiter`. */
    constructor (limit: int, window: Duration)
      ensures requests == map[] && this.limit == limit && this.window == window
      ensures Valid()
    {
      requests := map[];
      this.limit := limit;
      this.window := window;
    }

    /** Go's `srl.requests[ip]`: the empty list for an IP not in the map. */
    function Of(ip: string): seq<int>
      reads this
    {
      if ip in requests then requests[ip] else []
    }

    /** The map after `cleanup(ip, now)`: the IP's list cut to the window, or the IP dropped when nothing is left. */
    function Cleaned(ip: string, now: int): (m: map<string, seq<int>>)
      reads this
      ensures ip in m <==> Live(Of(ip), now - window) != []
      ensures ip in m ==> m[ip] == Live(Of(ip), now - window)
      ensures forall other :: other != ip ==> (other in m <==> other in requests)
      ensures forall other :: other != ip && other in m ==> m[other] == requests[other]
    {
      var live := Live(Of(ip), now - window);
      if live == [] then requests - {ip} else requests[ip := live]
    }

    /** `cleanup`: keeps the IP's timestamps after `now - window` and deletes the IP when none remain. */
    method Cleanup(ip: string, now: int)
      requires Valid()
      modifies this
      ensures requests == old(Cleaned(ip, now))
      ensures Valid()
    {
      var cutoff := now - window;
      var ts := Of(ip);
      var valid: seq<int> := [];
      var i := 0;
      while i < |ts|
        invariant 0 <= i <= |ts|
        invariant valid == Live(ts[..i], cutoff)
        invariant requests == old(requests)
      {
        assert ts[..i + 1] == ts[..i] + [ts[i]];
        LiveSnoc(ts[..i], ts[i], cutoff);
        if ts[i] > cutoff {
          valid := valid + [ts[i]];
        }
        i := i + 1;
      }
      assert ts[..i] == ts;
      if |valid| == 0 {
        requests := requests - {ip};
      } else {
        requests := requests[ip := valid];
      }
    }

    /**
     * The middleware's decision for one request from `ip` at `now`: after the
     * cleanup, the request is refused when the window already holds `limit`
     * requests, and otherwise admitted and recorded.
     */
    method Handle(ip: string, now: int) returns (admitted: bool)
      requires Valid()
      modifies this
      ensures admitted <==> |Live(old(Of(ip)), now - window)| < limit
      ensures admitted ==> requests == old(Cleaned(ip, now))[ip := Live(old(Of(ip)), now - window) + [now]]
      ensures !admitted ==> requests == old(Cleaned(ip, now))
      ensures Valid()
    {
      Cleanup(ip, now);
      if |Of(ip)| >= limit {
        return false;
      }
      requests := requests[ip := Of(ip) + [now]];
      return true;
    }
  }

  /**
   * Whatever came before, right after an admitted request from an IP its
   * window holds at most `limit` requests, the new one last.
   */
  lemma AdmittedWindowWithinLimit(limit: int, live: seq<int>, now: int, window: Duration)
    requires |live| < limit
    requires window > 0
    requires forall t :: t in live ==> t > now - window
    ensures |Live(live + [now], now - window)| <= limit
    ensures Live(live + [now], now - window) == live + [now]
  {
    LiveSnoc(live, now, now - window);
    LiveAllKept(live, now - window);
  }

  /** A list all of whose timestamps are after the cutoff is its own window. */
  lemma {:induction false} LiveAllKept(ts: seq<int>, cutoff: int)
    requires forall t :: t in ts ==> t > cutoff
    ensures Live(ts, cutoff) == ts
  {
    if ts != [] {
      var init, last := ts[..|ts| - 1], ts[|ts| - 1];
      assert ts == init + [last];
      assert last in ts;
      assert forall t :: t in init ==> t in ts;
      LiveAllKept(init, cutoff);
      LiveSnoc(init, last, cutoff);
    }
  }

  /** When exactly one listed key is a method-prefix match, every iteration order finds that key. */
  lemma {:induction false} FirstMethodPrefixUnique(order: seq<string>, verb: string, path: string, key: string)
    requires key in order && MethodPrefixRule(key, verb, path)
    requires forall k :: 0 <= k < |order| && order[k] != key ==> !MethodPrefixRule(order[k], verb, path)
    ensures FirstMethodPrefix(order, verb, path) == Some(key)
  {
    if order[0] != key {
      FirstMethodPrefixUnique(order[1..], verb, path, key);
    }
  }

  /**
   * An upload is a POST under "/v1/", so with the built-in rules it is
   * limited by the POST rule (30 a minute) and never by the upload rule,
   * in whatever order the map is visited.
   */
  lemma PostUploadUsesPostRule(order: seq<string>)
    requires ListsKeys(order, BuiltInRules)
    ensures RuleFor(BuiltInRules, DefaultRule, order, "POST", UploadKey) == BuiltInRules[PostKey]
    ensures BuiltInRules[PostKey] != BuiltInRules[UploadKey]
  {
    assert "POST" + ":" + UploadKey !in BuiltInRules;
    assert MethodPrefixRule(PostKey, "POST", UploadKey) by {
      assert PostKey[..5] == "POST:" && PostKey[5..] == "/v1/" && UploadKey[..4] == "/v1/";
    }
    forall k | 0 <= k < |order| && order[k] != PostKey
      ensures !MethodPrefixRule(order[k], "POST", UploadKey)
    {
      NotPostKey(order[k]);
    }
    FirstMethodPrefixUnique(order, "POST", UploadKey, PostKey);
  }

  /**
   * A key whose second character is not 'a', and whose every colon is followed
   * two characters later by something other than 'a', applies in no way to a
   * path whose second character is 'a'.
   */
  lemma KeyMissesApiPath(key: string, verb: string, path: string)
    requires |key| >= 2 && key[1] != 'a'
    requires forall j :: 0 <= j < |key| && key[j] == ':' ==> j + 2 < |key| && key[j + 2] != 'a'
    requires |path| >= 2 && path[1] == 'a'
    ensures key != verb + ":" + path && !MethodPrefixRule(key, verb, path) && !PathPrefixRule(key, path)
  {
    var exact := verb + ":" + path;
    assert exact[|verb|] == ':' && exact[|verb| + 2] == path[1];
    if |key| > |verb| + 1 && key[..|verb| + 1] == verb + ":" {
      assert key[|verb|] == (verb + ":")[|verb|];
      assert key[|verb| + 1..][1] == key[|verb| + 2];
    }
  }

  /** The built-in keys: second character 'v', 'O', 'U' or 'E', and a "/v" after every colon. */
  lemma BuiltInKeyShape(key: string)
    requires key in BuiltInRules
    ensures |key| >= 2 && key[1] != 'a'
    ensures forall j :: 0 <= j < |key| && key[j] == ':' ==> j + 2 < |key| && key[j + 2] != 'a'
  {
    if key == UploadKey {
    } else if key == SearchKey {
    } else if key == MenuKey {
    } else if key == PostKey {
    } else if key == PutKey {
    } else {
      assert key == DeleteKey;
    }
  }

  /** No built-in key applies to a path under "/api/", the prefix every route of the server has. */
  lemma NoBuiltInKeyForApiPath(key: string, verb: string, path: string)
    requires key in BuiltInRules
    requires |path| >= 2 && path[..2] == "/a"
    ensures key != verb + ":" + path && !MethodPrefixRule(key, verb, path) && !PathPrefixRule(key, path)
  {
    BuiltInKeyShape(key);
    assert path[1] == path[..2][1];
    KeyMissesApiPath(key, verb, path);
  }

  /**
   * Every route of the server lives under "/api/", while the built-in keys
   * are written for "/v1/": the advanced limiter applies its default rule to
   * every request the server routes, whatever the method and the map order.
   */
  lemma ApiRequestsUseDefaultRule(order: seq<string>, verb: string, path: string)
    requires ListsKeys(order, BuiltInRules)
    requires |path| >= 2 && path[..2] == "/a"
    ensures RuleFor(BuiltInRules, DefaultRule, order, verb, path) == DefaultRule
  {
    NoBuiltInKeyForApiPath(PostKey, verb, path);
    if verb + ":" + path in BuiltInRules {
      NoBuiltInKeyForApiPath(verb + ":" + path, verb, path);
    }
    if path in BuiltInRules {
      NoBuiltInKeyForApiPath(path, verb, path);
    }
    forall k | 0 <= k < |order|
      ensures !MethodPrefixRule(order[k], verb, path) && !PathPrefixRule(order[k], path)
    {
      NoBuiltInKeyForApiPath(order[k], verb, path);
    }
  }
}
