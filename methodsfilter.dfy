/** `methodsMiddleware` (middlewares.go): an allow-list of request methods.
    The comment at middlewares.go:11-12 says a view's `Methods` installs it;
    the `View.Methods` modelled here (view.go:64-69) only fills the view's
    method set. */
module MethodsMiddleware {
  import opened Http
  import opened Requests
  import opened Responses
  import opened MiddlewareCore

  /** The handler `Apply` returns: forward when the request method equals one
      of the listed strings (exact, case-sensitive), otherwise a 405 error
      response. An empty list rejects every request. */
  function MethodsFilter(methods: seq<string>, req: Request): (h: Handling<Response>)
    ensures h.Forward? <==> req.httpRequest.httpMethod in methods
    ensures h.Answer? ==> h.resp == NewErrorResponse("Method Not Allowed", StatusMethodNotAllowed)
  {
    if methods == [] then Answer(NewErrorResponse(StatusText(StatusMethodNotAllowed), StatusMethodNotAllowed))
    else if methods[0] == req.httpRequest.httpMethod then Forward
    else MethodsFilter(methods[1..], req)
  }

  /** Lower-case spellings are not recognised. */
  lemma CaseSensitive(req: Request)
    requires req.httpRequest.httpMethod == "get"
    ensures Run(MethodsFilter(["GET"], req), req, (r: Request) => NewHTMLResponse("", StatusOK)).code == StatusMethodNotAllowed
  {
  }
}
