/** The root package's own responses (response.go): an HTML and a JSON
    response, each with a content type, a body and a status code. */
module RootResponses {
  import opened Outcomes
  import opened GoStrings
  import opened Values

  datatype RootResponse =
    | HtmlResponse(content: string, code: int)
    | JsonResponse(body: map<string, Value>, code: int)

  function ContentType(r: RootResponse): (t: string)
    ensures t == if r.HtmlResponse? then "text/html" else "application/json"
  {
    match r
    case HtmlResponse(_, _) => "text/html"
    case JsonResponse(_, _) => "application/json"
  }

  /** `toBytes`: the content's bytes, or the marshalled body; `marshal` stands
      for `json.Marshal`, and its error is raised as a panic. */
  function ToBytes(r: RootResponse, marshal: map<string, Value> -> Result<seq<Byte>>): (g: Guarded<seq<Byte>>)
    ensures r.HtmlResponse? ==> g == Returns(Encode(r.content))
    ensures r.JsonResponse? ==> (g.Aborts? <==> marshal(r.body).Err?)
    ensures r.JsonResponse? && marshal(r.body).Ok? ==> g == Returns(marshal(r.body).value)
    ensures r.JsonResponse? && marshal(r.body).Err? ==> g == Aborts(marshal(r.body).message)
  {
    match r
    case HtmlResponse(content, _) => Returns(Encode(content))
    case JsonResponse(body, _) =>
      (match marshal(body)
       case Ok(bytes) => Returns(bytes)
       case Err(e) => Aborts(e))
  }

  /** `statusCode`: 200 stands in for an unset code. */
  function StatusCode(r: RootResponse): (c: int)
    ensures c != 0
    ensures r.code != 0 ==> c == r.code
    ensures r.code == 0 ==> c == 200
  {
    if r.code == 0 then 200 else r.code
  }
}
