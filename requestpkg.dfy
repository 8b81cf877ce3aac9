/** The getters of the newer `request` package, which the
    `validators` package calls. That package's source is not part of this
    model. Its tests show getters that return the value itself and panic
    where the root getters return an error. The six getters modelled here
    are taken to coerce as the root getters do, and to panic with the root
    getter's error text; both are assumptions. The package's `GetIntArray`
    is not modelled: its tests show it accepting string elements, which the
    root getter rejects. */
module PanickingGetters {
  import opened Outcomes
  import opened Values
  import R = Requests

  /** A `(value, error)` result whose error is raised as a panic. */
  function Must<T>(res: Result<T>): (g: Guarded<T>)
    ensures g.Returns? <==> res.Ok?
    ensures res.Ok? ==> g.value == res.value
    ensures res.Err? ==> g.reason == res.message
  {
    match res
    case Ok(v) => Returns(v)
    case Err(e) => Aborts(e)
  }

  function GetString(r: R.Request, name: string): Guarded<string>
  {
    Must(R.GetString(r, name))
  }

  function GetInt(r: R.Request, name: string): Guarded<int>
  {
    Must(R.GetInt(r, name))
  }

  function GetFloat(r: R.Request, name: string, parseFloat: string -> Result<real>): Guarded<real>
  {
    Must(R.GetFloat(r, name, parseFloat))
  }

  function GetBool(r: R.Request, name: string): Guarded<bool>
  {
    Must(R.GetBool(r, name))
  }

  function GetArray(r: R.Request, name: string): Guarded<seq<Value>>
  {
    Must(R.GetArray(r, name))
  }

  function GetMap(r: R.Request, name: string): Guarded<Params>
  {
    Must(R.GetMap(r, name))
  }

  /** Every getter panics on a missing parameter. */
  lemma MissingPanics(r: R.Request, name: string, parseFloat: string -> Result<real>)
    requires name !in r.parameters
    ensures GetString(r, name).Aborts? && GetInt(r, name).Aborts? && GetFloat(r, name, parseFloat).Aborts?
    ensures GetBool(r, name).Aborts? && GetArray(r, name).Aborts? && GetMap(r, name).Aborts?
  {
  }
}
