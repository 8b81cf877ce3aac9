/** The parts of a `net/http` request that the core reads, and the status
    codes and texts it uses. */
module Http {

  /** `url` is `URL.String()`, `path` is `URL.Path`; `header` maps a canonical
      header name to its first value. */
  datatype HttpRequest = HttpRequest(
    httpMethod: string,
    url: string,
    path: string,
    remoteAddr: string,
    header: map<string, string>)

  /** `Header.Get`: the first value, or "" when the header is absent. */
  function HeaderGet(req: HttpRequest, name: string): string
  {
    if name in req.header then req.header[name] else ""
  }

  const StatusOK := 200
  const StatusTemporaryRedirect := 307
  const StatusPermanentRedirect := 308
  const StatusForbidden := 403
  const StatusMethodNotAllowed := 405
  const StatusUnprocessableEntity := 422
  const StatusTooManyRequests := 429
  const StatusInternalServerError := 500

  /** `http.StatusText` for the codes the core produces ("" for any other). */
  function StatusText(code: int): string
  {
    if code == StatusOK then "OK"
    else if code == StatusTemporaryRedirect then "Temporary Redirect"
    else if code == StatusPermanentRedirect then "Permanent Redirect"
    else if code == StatusForbidden then "Forbidden"
    else if code == StatusMethodNotAllowed then "Method Not Allowed"
    else if code == StatusUnprocessableEntity then "Unprocessable Entity"
    else if code == StatusTooManyRequests then "Too Many Requests"
    else if code == StatusInternalServerError then "Internal Server Error"
    else ""
  }
}
