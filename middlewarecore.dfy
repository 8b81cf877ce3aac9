/** What the two middleware packages (`middleware.go` in the root package and
    the `middlewares` package) have in common: the client address, the
    allow-list searches, the rate limiter's per-address counters and the
    response cache. Both packages declare identical rate limiter and cache
    structs over their own response types; the model states each struct
    once. Time is an explicit input in nanoseconds since the Unix epoch, and
    the mutex around the critical section is not modelled. */
module MiddlewareCore {
  import opened GoStrings
  import opened Requests

  /** What a middleware decides for one request: answer it itself, or pass
      it on to the next handler and return that handler's response. */
  datatype Handling<R> = Forward | Answer(resp: R)

  /** The response a request gets once the decision is taken. */
  function Run<R>(h: Handling<R>, req: Request, next: Request -> R): R
  {
    match h
    case Forward => next(req)
    case Answer(resp) => resp
  }

  /** `strings.Split(RemoteAddr, ":")[0]`. */
  function ClientIP(remoteAddr: string): (ip: string)
    ensures ':' !in ip
    ensures ':' in remoteAddr ==> |ip| < |remoteAddr| && remoteAddr[..|ip|] == ip && remoteAddr[|ip|] == ':'
    ensures ':' !in remoteAddr ==> ip == remoteAddr
  {
    BeforeFirst(remoteAddr, ':')
  }

  /** An IPv4 address and port give the address. */
  lemma ClientIPOfHostPort(host: string, port: string)
    requires ':' !in host
    ensures ClientIP(host + ":" + port) == host
  {
    var s := host + ":" + port;
    assert s[..|host|] == host && s[|host|] == ':';
  }

  /** An IPv6 peer ("[::1]:8080") is reduced to "[", so it passes an IP filter
      only when "[" itself is listed. */
  lemma ClientIPOfBracketed(rest: string)
    ensures ClientIP("[:" + rest) == "["
  {
    var s := "[:" + rest;
    assert s[..1] == "[" && s[1] == ':';
  }

  /** `isAllowedIP`: the search of the allow-list. */
  function IsAllowedIP(allowedIPs: seq<string>, ip: string): (r: bool)
    ensures r <==> ip in allowedIPs
  {
    if allowedIPs == [] then false
    else allowedIPs[0] == ip || IsAllowedIP(allowedIPs[1..], ip)
  }

  // ---------------------------------------------------------------- rate limiting

  /** `time.Unix(0, 0)`, the last request time of an address never seen. */
  const EPOCH: int := 0

  /** One address's entry: its counter and the time of its last reset. */
  datatype Slot = Slot(count: int, last: int)

  /** One request from an address at `now`: the counter restarts when more
      than `interval` has passed since the last reset, and then counts the
      request whether or not it is going to be rejected. */
  function Tick(s: Slot, now: int, interval: int): (t: Slot)
    ensures t.last == s.last || t.last == now
    ensures (t.last == now && t.count == 1) || (t.last == s.last && t.count == s.count + 1)
  {
    if now - s.last > interval then Slot(1, now) else Slot(s.count + 1, s.last)
  }

  /** A run of requests from one address. */
  function Replay(s: Slot, times: seq<int>, interval: int): Slot
    decreases times
  {
    if times == [] then s else Replay(Tick(s, times[0], interval), times[1..], interval)
  }

  class RateLimiter {
    const maxRequests: int
    const interval: int
    var ipCounters: map<string, int>
    var ipLastRequest: map<string, int>

    /** `NewRateLimiterMiddleware`: no address seen yet. */
    constructor (maxRequests: int, interval: int)
      ensures this.maxRequests == maxRequests && this.interval == interval
      ensures ipCounters == map[] && ipLastRequest == map[]
      ensures Valid()
    {
      this.maxRequests := maxRequests;
      this.interval := interval;
      ipCounters := map[];
      ipLastRequest := map[];
    }

    /** Every address with a reset time has a counter, and every counter has
        counted at least the request that created it. */
    predicate Valid()
      reads this
    {
      && ipLastRequest.Keys <= ipCounters.Keys
      && forall ip :: ip in ipCounters ==> ipCounters[ip] >= 1
    }

    /** The address's entry, with Go's zero value for a missing counter and
        the epoch for a missing time. */
    function SlotOf(ip: string): Slot
      reads this
    {
      Slot(if ip in ipCounters then ipCounters[ip] else 0,
           if ip in ipLastRequest then ipLastRequest[ip] else EPOCH)
    }

    /** The critical section of `Apply`: reset when the interval has passed,
        count the request, and report whether it exceeds the limit. */
    method Admit(ip: string, now: int) returns (rejected: bool)
      modifies this
      ensures SlotOf(ip) == Tick(old(SlotOf(ip)), now, interval)
      ensures rejected <==> SlotOf(ip).count > maxRequests
      ensures ipCounters.Keys == old(ipCounters.Keys) + {ip}
      ensures ipLastRequest.Keys <= old(ipLastRequest.Keys) + {ip}
      ensures forall other :: other != ip ==>
        && (other in ipCounters <==> other in old(ipCounters))
        && (other in ipLastRequest <==> other in old(ipLastRequest))
        && SlotOf(other) == old(SlotOf(other))
      ensures old(Valid()) ==> Valid()
    {
      var last := EPOCH;
      if ip in ipLastRequest {
        last := ipLastRequest[ip];
      }
      if now - last > interval {
        ipCounters := ipCounters[ip := 0];
        ipLastRequest := ipLastRequest[ip := now];
      }
      var count := if ip in ipCounters then ipCounters[ip] else 0;
      ipCounters := ipCounters[ip := count + 1];
      rejected := ipCounters[ip] > maxRequests;
    }
  }

  /** The window is fixed: requests within `interval` of the last reset never
      move it, and each one adds one to the counter, rejected or not. */
  lemma {:induction false} FixedWindow(s: Slot, times: seq<int>, interval: int)
    requires forall i :: 0 <= i < |times| ==> times[i] - s.last <= interval
    ensures Replay(s, times, interval) == Slot(s.count + |times|, s.last)
    decreases times
  {
    if times != [] {
      FixedWindow(Tick(s, times[0], interval), times[1..], interval);
    }
  }

  /** After a reset at `start`, the k-th request of the window (counting the
      one that reset it as the first) is rejected iff k > maxRequests: at most
      maxRequests requests get through per window. */
  lemma WindowAdmitsAtMostMax(start: int, times: seq<int>, interval: int, maxRequests: int)
    requires forall i :: 0 <= i < |times| ==> times[i] - start <= interval
    ensures var s := Replay(Slot(1, start), times, interval);
      s.last == start && (s.count > maxRequests <==> 1 + |times| > maxRequests)
  {
    FixedWindow(Slot(1, start), times, interval);
  }

  /** The first request from an unseen address, once the clock is past one
      interval after the epoch, starts a window at that time. */
  lemma FirstRequestResets(now: int, interval: int)
    requires now - EPOCH > interval
    ensures Tick(Slot(0, EPOCH), now, interval) == Slot(1, now)
  {
  }

  // ---------------------------------------------------------------- caching

  /** The go-cache store of a cache middleware, as a plain map without
      expiry. */
  class Cache<R> {
    const keyPrefix: string
    var store: map<string, R>

    /** `NewCacheMiddleware`: an empty store. */
    constructor (keyPrefix: string)
      ensures this.keyPrefix == keyPrefix && store == map[]
    {
      this.keyPrefix := keyPrefix;
      store := map[];
    }

    /** The key of a request: the prefix, then the request URL. */
    function Key(url: string): (k: string)
      ensures |k| == |keyPrefix| + |url| && k[..|keyPrefix|] == keyPrefix && k[|keyPrefix|..] == url
    {
      keyPrefix + url
    }

    /** Only responses with status 200 are ever stored. */
    predicate OnlyOk(statusCode: R -> int)
      reads this
    {
      forall k :: k in store ==> statusCode(store[k]) == 200
    }
  }

  /** Distinct URLs have distinct keys. */
  lemma KeysInjective<R>(c: Cache<R>, u1: string, u2: string)
    requires c.Key(u1) == c.Key(u2)
    ensures u1 == u2
  {
    assert u1 == c.Key(u1)[|c.keyPrefix|..];
  }
}
