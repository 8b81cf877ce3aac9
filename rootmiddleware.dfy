/** The root package's middlewares (middleware.go) that decide something:
    IP filter, rate limiter and cache, over the root package's responses. */
module RootMiddleware {
  import opened Http
  import opened Requests
  import opened RootResponses
  import opened MiddlewareCore

  /** `IPFilterMiddleware.Apply`. */
  function IPFilter(allowedIPs: seq<string>, req: Request): (h: Handling<RootResponse>)
    ensures h.Forward? <==> ClientIP(req.httpRequest.remoteAddr) in allowedIPs
    ensures h.Answer? ==> h.resp == HtmlResponse("Access denied", StatusForbidden)
  {
    if IsAllowedIP(allowedIPs, ClientIP(req.httpRequest.remoteAddr)) then Forward
    else Answer(HtmlResponse("Access denied", StatusForbidden))
  }

  /** `RateLimiterMiddleware.Apply`. */
  method RateLimiterApply(rl: RateLimiter, req: Request, now: int, next: Request -> RootResponse)
    returns (resp: RootResponse, forwarded: bool)
    modifies rl
    ensures var ip := ClientIP(req.httpRequest.remoteAddr);
      && rl.SlotOf(ip) == Tick(old(rl.SlotOf(ip)), now, rl.interval)
      && (forall other :: other != ip ==> rl.SlotOf(other) == old(rl.SlotOf(other)))
      && (forwarded <==> rl.SlotOf(ip).count <= rl.maxRequests)
    ensures forwarded ==> resp == next(req)
    ensures !forwarded ==> resp == HtmlResponse("Rate limit exceeded", StatusTooManyRequests)
    ensures old(rl.Valid()) ==> rl.Valid()
  {
    var ip := ClientIP(req.httpRequest.remoteAddr);
    var rejected := rl.Admit(ip, now);
    if rejected {
      return HtmlResponse("Rate limit exceeded", StatusTooManyRequests), false;
    }
    resp := next(req);
    forwarded := true;
  }

  /** `CacheMiddleware.Apply`. */
  method CacheApply(cm: Cache<RootResponse>, req: Request, next: Request -> RootResponse)
    returns (resp: RootResponse, forwarded: bool)
    modifies cm
    ensures var key := cm.Key(req.httpRequest.url);
      && (key in old(cm.store) ==> !forwarded && resp == old(cm.store[key]) && cm.store == old(cm.store))
      && (key !in old(cm.store) ==>
            forwarded && resp == next(req) &&
            cm.store == if StatusCode(resp) == StatusOK then old(cm.store)[key := resp] else old(cm.store))
    ensures old(cm.OnlyOk(StatusCode)) ==> cm.OnlyOk(StatusCode)
  {
    var key := cm.Key(req.httpRequest.url);
    if key in cm.store {
      return cm.store[key], false;
    }
    resp := next(req);
    forwarded := true;
    if StatusCode(resp) == StatusOK {
      cm.store := cm.store[key := resp];
    }
  }
}
