/** The `middlewares` package: IP filter, rate limiter, CORS and cache, over
    the `responses` package's responses. Each `Apply` is modelled as the
    handler it returns, run on one request; `next` is the handler it wraps,
    and `forwarded` says whether `next` was called. */
module Middlewares {
  import opened Outcomes
  import opened GoStrings
  import opened Http
  import opened Requests
  import opened Responses
  import opened MiddlewareCore

  /** `IPFilterMiddleware.Apply`. */
  function IPFilter(allowedIPs: seq<string>, req: Request): (h: Handling<Response>)
    ensures h.Forward? <==> ClientIP(req.httpRequest.remoteAddr) in allowedIPs
    ensures h.Answer? ==> h.resp == NewHTMLResponse("Access denied", StatusForbidden)
  {
    if IsAllowedIP(allowedIPs, ClientIP(req.httpRequest.remoteAddr)) then Forward
    else Answer(NewHTMLResponse("Access denied", StatusForbidden))
  }

  /** `RateLimiterMiddleware.Apply`: the critical section, then `next` only
      for a request within the limit. */
  method RateLimiterApply(rl: RateLimiter, req: Request, now: int, next: Request -> Response)
    returns (resp: Response, forwarded: bool)
    modifies rl
    ensures var ip := ClientIP(req.httpRequest.remoteAddr);
      && rl.SlotOf(ip) == Tick(old(rl.SlotOf(ip)), now, rl.interval)
      && (forall other :: other != ip ==> rl.SlotOf(other) == old(rl.SlotOf(other)))
      && (forwarded <==> rl.SlotOf(ip).count <= rl.maxRequests)
    ensures forwarded ==> resp == next(req)
    ensures !forwarded ==> resp == NewHTMLResponse("Rate limit exceeded", StatusTooManyRequests)
    ensures old(rl.Valid()) ==> rl.Valid()
  {
    var ip := ClientIP(req.httpRequest.remoteAddr);
    var rejected := rl.Admit(ip, now);
    if rejected {
      return NewHTMLResponse("Rate limit exceeded", StatusTooManyRequests), false;
    }
    resp := next(req);
    forwarded := true;
  }

  // ---------------------------------------------------------------- CORS

  datatype Cors = Cors(allowedOrigins: seq<string>, allowedMethods: seq<string>, allowedHeaders: seq<string>)

  const ALLOW_ORIGIN := "Access-Control-Allow-Origin"
  const ALLOW_METHODS := "Access-Control-Allow-Methods"
  const ALLOW_HEADERS := "Access-Control-Allow-Headers"

  /** `originIsAllowed`: some entry is the wildcard or the origin itself. */
  function OriginIsAllowed(allowedOrigins: seq<string>, origin: string): (r: bool)
    ensures r <==> "*" in allowedOrigins || origin in allowedOrigins
  {
    if allowedOrigins == [] then false
    else allowedOrigins[0] == "*" || allowedOrigins[0] == origin || OriginIsAllowed(allowedOrigins[1..], origin)
  }

  /** The three headers `Apply` sets, for the request's `Origin`. */
  function CorsHeaders(c: Cors, origin: string): (h: Header)
    ensures h.Keys == {ALLOW_ORIGIN, ALLOW_METHODS, ALLOW_HEADERS} && h[ALLOW_ORIGIN] == origin
  {
    map[ALLOW_ORIGIN := origin, ALLOW_METHODS := Join(c.allowedMethods, ", "), ALLOW_HEADERS := Join(c.allowedHeaders, ", ")]
  }

  /** `corsMiddleware.Apply`. An OPTIONS request is answered here: 200 with
      an empty HTML body for an allowed origin, 403 otherwise. Any other
      request goes to `next`. In both cases the three headers are set on the
      map `Headers()` returns, which only a redirect response keeps. */
  method CorsApply(c: Cors, req: Request, next: Request -> Response) returns (resp: Response, forwarded: bool)
    modifies if next(req).Redirect? then {next(req).rr} else {}
    ensures forwarded <==> req.httpRequest.httpMethod != "OPTIONS"
    ensures forwarded ==> resp == next(req)
    ensures !forwarded ==>
      resp == if OriginIsAllowed(c.allowedOrigins, HeaderGet(req.httpRequest, "Origin")) then NewHTMLResponse("", StatusOK)
              else NewErrorResponse("Forbidden", StatusForbidden)
    ensures forwarded && resp.Redirect? && old(allocated(resp)) ==>
      resp.rr.headers == old(resp.rr.headers) + CorsHeaders(c, HeaderGet(req.httpRequest, "Origin"))
    ensures !resp.Redirect? ==> ALLOW_ORIGIN !in Headers(resp)
  {
    var origin := HeaderGet(req.httpRequest, "Origin");
    if req.httpRequest.httpMethod == "OPTIONS" {
      forwarded := false;
      if OriginIsAllowed(c.allowedOrigins, origin) {
        resp := NewHTMLResponse("", StatusOK);
        SetHeader(resp, ALLOW_ORIGIN, origin);
        SetHeader(resp, ALLOW_METHODS, Join(c.allowedMethods, ", "));
        SetHeader(resp, ALLOW_HEADERS, Join(c.allowedHeaders, ", "));
      } else {
        resp := NewErrorResponse(StatusText(StatusForbidden), StatusForbidden);
      }
      return;
    }
    resp := next(req);
    forwarded := true;
    SetHeader(resp, ALLOW_ORIGIN, origin);
    SetHeader(resp, ALLOW_METHODS, Join(c.allowedMethods, ", "));
    SetHeader(resp, ALLOW_HEADERS, Join(c.allowedHeaders, ", "));
  }

  /** An HTML response whose `Headers()` creates its map once and then
      returns that same map, as a pointer receiver would. */
  class KeptHtmlResponse {
    const content: string
    const code: int
    var headers: Header

    constructor (content: string, code: int)
      ensures this.content == content && this.code == code
      ensures headers == map["Content-Type" := "text/html"]
    {
      this.content := content;
      this.code := code;
      headers := map["Content-Type" := "text/html"];
    }

    method Set(name: string, value: string)
      modifies this
      ensures headers == old(headers)[name := value]
    {
      headers := headers[name := value];
    }
  }

  /** The preflight answer with headers that are kept: an allowed origin gets
      a 200 response carrying the three CORS headers, a disallowed one gets
      nothing here (it keeps the 403 answer of `CorsApply`). */
  method CorsPreflightCorrected(c: Cors, origin: string) returns (resp: Option<KeptHtmlResponse>)
    ensures resp.Some? <==> OriginIsAllowed(c.allowedOrigins, origin)
    ensures resp.Some? ==> fresh(resp.value) && resp.value.code == StatusOK && resp.value.content == ""
    ensures resp.Some? ==> resp.value.headers == map["Content-Type" := "text/html"] + CorsHeaders(c, origin)
    ensures resp.Some? ==> resp.value.headers[ALLOW_ORIGIN] == origin
  {
    if !OriginIsAllowed(c.allowedOrigins, origin) {
      return None;
    }
    var r := new KeptHtmlResponse("", StatusOK);
    r.Set(ALLOW_ORIGIN, origin);
    r.Set(ALLOW_METHODS, Join(c.allowedMethods, ", "));
    r.Set(ALLOW_HEADERS, Join(c.allowedHeaders, ", "));
    resp := Some(r);
  }

  // ---------------------------------------------------------------- cache

  /** `CacheMiddleware.Apply`: a hit is returned without calling `next`; a
      miss calls `next`, stores the response iff its status is 200, and
      returns it either way. */
  method CacheApply(cm: Cache<Response>, req: Request, next: Request -> Response)
    returns (resp: Response, forwarded: bool)
    modifies cm
    ensures var key := cm.Key(req.httpRequest.url);
      && (key in old(cm.store) ==> !forwarded && resp == old(cm.store[key]) && cm.store == old(cm.store))
      && (key !in old(cm.store) ==>
            forwarded && resp == next(req) &&
            cm.store == if StatusCode(resp) == StatusOK then old(cm.store)[key := resp] else old(cm.store))
    ensures old(cm.OnlyOk(StatusCode)) ==> cm.OnlyOk(StatusCode)
  {
    var key := cm.Key(req.httpRequest.url);
    if key in cm.store {
      return cm.store[key], false;
    }
    resp := next(req);
    forwarded := true;
    if StatusCode(resp) == StatusOK {
      cm.store := cm.store[key := resp];
    }
  }

  /** Two requests for the same URL: once the first has stored its 200
      response, the second gets that response and `next` is not called again. */
  method CacheServesRepeat(cm: Cache<Response>, req: Request, next: Request -> Response)
    returns (first: Response, second: Response)
    requires cm.Key(req.httpRequest.url) !in cm.store
    requires StatusCode(next(req)) == StatusOK
    modifies cm
    ensures first == next(req) && second == first
  {
    var forwarded;
    first, forwarded := CacheApply(cm, req, next);
    second, forwarded := CacheApply(cm, req, next);
    assert !forwarded;
  }
}
