/** The `responses` package: HTML, error, JSON and redirect responses.
    The first three are values whose `Headers()` builds a fresh map on each
    call; the redirect response is a pointer whose header map is shared by
    every caller. A header map is modelled with one value per (canonical)
    name, as `Header.Set` leaves it. */
module Responses {
  import opened Outcomes
  import opened GoStrings
  import opened Values
  import opened Http

  type Header = map<string, string>

  class RedirectResponse {
    var headers: Header
    const code: int

    constructor (code: int, headers: Header)
      ensures this.code == code && this.headers == headers
    {
      this.code := code;
      this.headers := headers;
    }
  }

  datatype Response =
    | Html(content: string, code: int)
    | Error(error: string, code: int)
    | Json(body: map<string, Value>, code: int)
    | Redirect(rr: RedirectResponse)

  function NewHTMLResponse(content: string, code: int): (r: Response)
    ensures r.Html? && r.content == content && r.code == code
  {
    Html(content, code)
  }

  function NewErrorResponse(error: string, code: int): (r: Response)
    ensures r.Error? && r.error == error && r.code == code
  {
    Error(error, code)
  }

  function NewJSONResponse(body: map<string, Value>, code: int): (r: Response)
    ensures r.Json? && r.body == body && r.code == code
  {
    Json(body, code)
  }

  /** `StatusCode`: HTML and JSON report 200 for a zero code, an error
      response reports its code as is. */
  function StatusCode(r: Response): int
  {
    match r
    case Html(_, c) => if c == 0 then 200 else c
    case Error(_, c) => c
    case Json(_, c) => if c == 0 then 200 else c
    case Redirect(rr) => rr.code
  }

  /** `Headers`: a map built on the spot for the value responses, the shared
      map for a redirect. */
  function Headers(r: Response): Header
    reads if r.Redirect? then {r.rr} else {}
  {
    match r
    case Html(_, _) => map["Content-Type" := "text/html"]
    case Error(_, _) => map["Content-Type" := "text/plain; charset=utf-8", "X-Content-Type-Options" := "nosniff"]
    case Json(_, _) => map["Content-Type" := "application/json"]
    case Redirect(rr) => rr.headers
  }

  /** `r.Headers().Set(name, value)`: kept by a redirect, lost on the value
      responses, whose next `Headers()` builds the map anew. */
  method SetHeader(r: Response, name: string, value: string)
    modifies if r.Redirect? then {r.rr} else {}
    ensures r.Redirect? ==> Headers(r) == old(Headers(r))[name := value]
    ensures !r.Redirect? ==> Headers(r) == old(Headers(r))
  {
    if r.Redirect? {
      r.rr.headers := r.rr.headers[name := value];
    }
  }

  /** `ToBytes`. `marshal` stands for `json.Marshal`; its error is raised as
      a panic. A redirect has no body. */
  function ToBytes(r: Response, marshal: map<string, Value> -> Result<seq<Byte>>): Guarded<seq<Byte>>
  {
    match r
    case Html(content, _) => Returns(Encode(content))
    case Error(e, _) => Returns(Encode(e))
    case Json(body, _) =>
      (match marshal(body)
       case Ok(bytes) => Returns(bytes)
       case Err(e) => Aborts(e))
    case Redirect(_) => Returns([])
  }

  /** HTML and JSON responses never report status 0; any other code is kept.
      An error response keeps even 0. */
  lemma StatusDefaults(r: Response)
    requires !r.Redirect?
    ensures r.Html? || r.Json? ==> StatusCode(r) != 0 && (r.code != 0 ==> StatusCode(r) == r.code)
    ensures r.Error? ==> StatusCode(r) == r.code
  {
  }

  /** A value response declares exactly one content type, its own; only the
      error response adds `X-Content-Type-Options`. */
  lemma ValueHeaders(r: Response)
    requires !r.Redirect?
    ensures "Content-Type" in Headers(r)
    ensures Headers(r).Keys == if r.Error? then {"Content-Type", "X-Content-Type-Options"} else {"Content-Type"}
    ensures r.Html? ==> Headers(r)["Content-Type"] == "text/html"
    ensures r.Json? ==> Headers(r)["Content-Type"] == "application/json"
    ensures r.Error? ==> Headers(r)["Content-Type"] == "text/plain; charset=utf-8" && Headers(r)["X-Content-Type-Options"] == "nosniff"
  {
  }

  /** The body is the text's bytes for HTML and error responses, is empty for
      a redirect, and only a JSON response can abort: exactly when marshalling
      its body fails. */
  lemma BodyBytes(r: Response, marshal: map<string, Value> -> Result<seq<Byte>>)
    ensures ToBytes(r, marshal).Aborts? <==> r.Json? && marshal(r.body).Err?
    ensures r.Html? ==> ToBytes(r, marshal) == Returns(Encode(r.content))
    ensures r.Error? ==> ToBytes(r, marshal) == Returns(Encode(r.error))
    ensures r.Json? && marshal(r.body).Ok? ==> ToBytes(r, marshal) == Returns(marshal(r.body).value)
    ensures r.Redirect? ==> ToBytes(r, marshal) == Returns([])
  {
  }

  // ---------------------------------------------------------------- escaping

  const PERCENT: Byte := '%' as int

  /** One byte as `hexEscapeNonASCII` writes it: itself below 0x80, otherwise
      '%' and two lower-case hexadecimal digits. */
  function EscapeByte(b: Byte): (r: seq<Byte>)
    ensures b < 0x80 ==> r == [b]
    ensures b >= 0x80 ==> |r| == 3 && r[0] == PERCENT
    ensures AsciiBytes(r)
  {
    if b < 0x80 then [b]
    else [PERCENT, HexDigit(b / 16) as int, HexDigit(b % 16) as int]
  }

  /** The escaped text, byte by byte. */
  function Escaped(s: seq<Byte>): seq<Byte>
  {
    if s == [] then [] else Escaped(s[..|s| - 1]) + EscapeByte(s[|s| - 1])
  }

  function NonAsciiCount(s: seq<Byte>): nat
  {
    if s == [] then 0 else NonAsciiCount(s[..|s| - 1]) + (if s[|s| - 1] >= 0x80 then 1 else 0)
  }

  /** `hexEscapeNonASCII`: the first loop counts the output length; when no
      byte needs escaping the input is returned, otherwise the second loop
      appends each byte or its escape. */
  method HexEscapeNonAscii(s: seq<Byte>) returns (r: seq<Byte>)
    ensures r == Escaped(s)
  {
    var newLen := 0;
    var i := 0;
    while i < |s|
      invariant 0 <= i <= |s|
      invariant newLen == i + 2 * NonAsciiCount(s[..i])
    {
      assert s[..i + 1][..i] == s[..i];
      if s[i] >= 0x80 {
        newLen := newLen + 3;
      } else {
        newLen := newLen + 1;
      }
      i := i + 1;
    }
    assert s[..|s|] == s;
    if newLen == |s| {
      NoNonAsciiMeansAscii(s);
      EscapedAscii(s);
      return s;
    }
    var b: seq<Byte> := [];
    i := 0;
    while i < |s|
      invariant 0 <= i <= |s|
      invariant b == Escaped(s[..i])
    {
      assert s[..i + 1][..i] == s[..i];
      if s[i] >= 0x80 {
        b := b + [PERCENT];
        b := b + [HexDigit(s[i] / 16) as int, HexDigit(s[i] % 16) as int];
      } else {
        b := b + [s[i]];
      }
      i := i + 1;
    }
    return b;
  }

  lemma {:induction false} NoNonAsciiMeansAscii(s: seq<Byte>)
    ensures NonAsciiCount(s) == 0 <==> AsciiBytes(s)
  {
    if s != [] {
      var init := s[..|s| - 1];
      NoNonAsciiMeansAscii(init);
      assert forall i :: 0 <= i < |init| ==> init[i] == s[i];
    }
  }

  /** ASCII input is returned unchanged. */
  lemma {:induction false} EscapedAscii(s: seq<Byte>)
    requires AsciiBytes(s)
    ensures Escaped(s) == s
  {
    if s != [] {
      var init := s[..|s| - 1];
      assert AsciiBytes(init) by {
        assert forall i :: 0 <= i < |init| ==> init[i] == s[i];
      }
      EscapedAscii(init);
      assert s == init + [s[|s| - 1]];
    }
  }

  /** Each non-ASCII byte grows by two. */
  lemma {:induction false} EscapedLength(s: seq<Byte>)
    ensures |Escaped(s)| == |s| + 2 * NonAsciiCount(s)
  {
    if s != [] {
      EscapedLength(s[..|s| - 1]);
    }
  }

  /** The output is ASCII. */
  lemma {:induction false} EscapedIsAscii(s: seq<Byte>)
    ensures AsciiBytes(Escaped(s))
  {
    if s != [] {
      EscapedIsAscii(s[..|s| - 1]);
      var a, b := Escaped(s[..|s| - 1]), EscapeByte(s[|s| - 1]);
      assert forall i :: 0 <= i < |a + b| ==> (a + b)[i] == if i < |a| then a[i] else b[i - |a|];
    }
  }

  /** Escaping twice is escaping once. */
  lemma Idempotent(s: seq<Byte>)
    ensures Escaped(Escaped(s)) == Escaped(s)
  {
    EscapedIsAscii(s);
    EscapedAscii(Escaped(s));
  }

  /** "é" (bytes C3 A9) becomes "%c3%a9". */
  lemma EscapeExample()
    ensures Escaped([0x2F, 0xC3, 0xA9]) == [0x2F, PERCENT, 'c' as int, '3' as int, PERCENT, 'a' as int, '9' as int]
  {
    assert [0x2F, 0xC3, 0xA9][..2] == [0x2F, 0xC3];
    assert [0x2F, 0xC3][..1] == [0x2F];
    assert [0x2F][..0] == [];
  }

  // ---------------------------------------------------------------- redirect

  /** The parts of a parsed URL that the redirect consults. */
  datatype UrlParts = UrlParts(scheme: string, host: string)

  /** `path.Split(p)`'s directory: everything up to and including the last "/". */
  function Dir(p: string): (d: string)
    ensures |d| <= |p| && d == p[..|d|]
    ensures d != [] ==> d[|d| - 1] == '/'
    ensures '/' in p ==> d != []
    ensures '/' !in p[|d|..]
  {
    p[..LastIndexOf(p, '/') + 1]
  }

  /** The request path, with "/" for an empty one. */
  function OldPath(req: HttpRequest): string
  {
    if req.path == "" then "/" else req.path
  }

  /** A relative reference not starting with "/", prefixed with the request
      path's directory. */
  function Absolutized(req: HttpRequest, url: string): string
  {
    if url == "" || url[0] != '/' then Dir(OldPath(req)) + url else url
  }

  /** The target of a relative reference (section 7.1.2 of RFC 7231): the
      path part up to the first "?" is cleaned, a trailing "/" is kept, and the
      query is re-appended verbatim. `clean` stands for `path.Clean`. */
  function Resolved(u: string, clean: string -> string): string
  {
    var i := IndexOf(u, '?');
    var p := if i == -1 then u else u[..i];
    var query := if i == -1 then "" else u[i..];
    var cleaned := clean(p);
    (if HasSuffix(p, "/") && !HasSuffix(cleaned, "/") then cleaned + "/" else cleaned) + query
  }

  /** The `Location` value before escaping. `parse` stands for `url.Parse`.
      A reference that does not parse, or has a scheme or a host, is kept. */
  function Target(req: HttpRequest, url: string, parse: string -> Result<UrlParts>, clean: string -> string): string
  {
    match parse(url)
    case Err(_) => url
    case Ok(u) => if u.scheme != "" || u.host != "" then url else Resolved(Absolutized(req, url), clean)
  }

  /** The headers a redirect starts with: the escaped `Location`, and an HTML
      content type for GET and HEAD. */
  function RedirectHeaders(req: HttpRequest, target: string): Header
  {
    var loc := Escaped(Encode(target));
    EscapedIsAscii(Encode(target));
    var h := map["Location" := AsciiString(loc)];
    if req.httpMethod == "GET" || req.httpMethod == "HEAD" then h["Content-Type" := "text/html; charset=utf-8"] else h
  }

  /** `newRedirectResponse`: rewrites the reference step by step, then sets
      the headers on a fresh map. */
  method NewRedirectResponse(req: HttpRequest, url: string, code: int, parse: string -> Result<UrlParts>, clean: string -> string)
    returns (rr: RedirectResponse)
    ensures fresh(rr) && rr.code == code
    ensures rr.headers == RedirectHeaders(req, Target(req, url, parse, clean))
  {
    var target := url;
    var u := parse(url);
    if u.Ok? && u.value.scheme == "" && u.value.host == "" {
      var oldpath := req.path;
      if oldpath == "" {
        oldpath := "/";
      }
      if target == "" || target[0] != '/' {
        target := Dir(oldpath) + target;
      }
      var query := "";
      var i := IndexOf(target, '?');
      if i != -1 {
        target, query := target[..i], target[i..];
      }
      var trailing := HasSuffix(target, "/");
      target := clean(target);
      if trailing && !HasSuffix(target, "/") {
        target := target + "/";
      }
      target := target + query;
    }
    var headers: Header := map[];
    var hadContentType := "Content-Type" in headers;
    var loc := HexEscapeNonAscii(Encode(target));
    EscapedIsAscii(Encode(target));
    headers := headers["Location" := AsciiString(loc)];
    if !hadContentType && (req.httpMethod == "GET" || req.httpMethod == "HEAD") {
      headers := headers["Content-Type" := "text/html; charset=utf-8"];
    }
    rr := new RedirectResponse(code, headers);
  }

  method NewPermanentRedirectResponse(req: HttpRequest, url: string, parse: string -> Result<UrlParts>, clean: string -> string)
    returns (r: Response)
    ensures r.Redirect? && fresh(r.rr) && StatusCode(r) == StatusPermanentRedirect
    ensures Headers(r) == RedirectHeaders(req, Target(req, url, parse, clean))
  {
    var rr := NewRedirectResponse(req, url, StatusPermanentRedirect, parse, clean);
    r := Redirect(rr);
  }

  method NewTemporaryRedirectResponse(req: HttpRequest, url: string, parse: string -> Result<UrlParts>, clean: string -> string)
    returns (r: Response)
    ensures r.Redirect? && fresh(r.rr) && StatusCode(r) == StatusTemporaryRedirect
    ensures Headers(r) == RedirectHeaders(req, Target(req, url, parse, clean))
  {
    var rr := NewRedirectResponse(req, url, StatusTemporaryRedirect, parse, clean);
    r := Redirect(rr);
  }

  /** An absolute reference, or one that does not parse, is only escaped. */
  lemma AbsoluteKept(req: HttpRequest, url: string, parse: string -> Result<UrlParts>, clean: string -> string)
    requires parse(url).Err? || parse(url).value.scheme != "" || parse(url).value.host != ""
    ensures RedirectHeaders(req, Target(req, url, parse, clean))["Location"] == AsciiString(Escaped(Encode(url)))
  {
  }

  /** When the request path is absolute, so is every absolutized reference. */
  lemma AbsolutizedIsAbsolute(req: HttpRequest, url: string)
    requires req.path == "" || req.path[0] == '/'
    ensures |Absolutized(req, url)| > 0 && Absolutized(req, url)[0] == '/'
  {
    var op := OldPath(req);
    assert op[0] == '/';
    assert '/' in op;
  }

  /** The query, from the first "?" on, is re-appended verbatim. */
  lemma QueryKept(u: string, clean: string -> string)
    requires '?' in u
    ensures HasSuffix(Resolved(u, clean), u[IndexOf(u, '?')..])
  {
  }

  /** The path part: the reference up to its first "?", or all of it. */
  function PathPart(u: string): (p: string)
    ensures '?' !in p && |p| <= |u| && p == u[..|p|]
    ensures '?' in u ==> u[|p|] == '?'
  {
    BeforeFirst(u, '?')
  }

  /** A trailing "/" of the path part survives cleaning, and the query, if
      any, follows it. */
  lemma TrailingSlashKept(u: string, clean: string -> string)
    requires HasSuffix(PathPart(u), "/")
    ensures var query := u[|PathPart(u)|..];
      HasSuffix(Resolved(u, clean), query) &&
      HasSuffix(Resolved(u, clean)[..|Resolved(u, clean)| - |query|], "/")
  {
  }

  /** Only GET and HEAD redirects carry the HTML content type; every redirect
      carries an ASCII `Location`. */
  lemma RedirectHeaderKeys(req: HttpRequest, target: string)
    ensures "Location" in RedirectHeaders(req, target) && IsAscii(RedirectHeaders(req, target)["Location"])
    ensures "Content-Type" in RedirectHeaders(req, target) <==> req.httpMethod == "GET" || req.httpMethod == "HEAD"
  {
  }
}
