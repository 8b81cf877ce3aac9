/** security.go: the API-key security provider. */
module Security {
  import opened Outcomes
  import opened Values
  import opened Requests
  import P = PanickingGetters

  /** The configured key and the name of the parameter that must carry it. */
  datatype APISecurity = APISecurity(apiKey: string, headerName: string)

  function GetName(sec: APISecurity): string
  {
    "api-key"
  }

  function GetScopes(sec: APISecurity): seq<string>
  {
    []
  }

  function NotFoundPanic(sec: APISecurity): string
  {
    "API Header '" + sec.headerName + "' not found"
  }

  /** `IsAuthenticated`: the single-result getter's panic is recovered and
      raised again with a message naming the header. */
  function IsAuthenticated(sec: APISecurity, r: Request): (g: Guarded<bool>)
    ensures g == Returns(true) <==> sec.headerName in r.parameters && r.parameters[sec.headerName] == Str(sec.apiKey)
    ensures g.Aborts? <==> !(sec.headerName in r.parameters && r.parameters[sec.headerName].Str?)
    ensures g.Aborts? ==> g.reason == NotFoundPanic(sec)
  {
    match P.GetString(r, sec.headerName)
    case Aborts(_) => Aborts(NotFoundPanic(sec))
    case Returns(s) => Returns(s == sec.apiKey)
  }

  /** A present string parameter other than the key is a clean refusal, not a panic. */
  lemma WrongKeyRefused(sec: APISecurity, r: Request, s: string)
    requires sec.headerName in r.parameters && r.parameters[sec.headerName] == Str(s) && s != sec.apiKey
    ensures IsAuthenticated(sec, r) == Returns(false)
  {
  }
}
