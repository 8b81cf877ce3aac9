/** parameter.go: where a parameter is found, and the parameter record. */
module Parameters {

  const PATH := "path"
  const QUERY := "query"
  const HEADER := "header"
  const COOKIE := "COOKIE"

  /** A named, located parameter with its validator chain; `V` is the
      validator type of the revision that uses the record. */
  datatype Parameter<V> = Parameter(name: string, location: string, validators: seq<V>)

  /** The location is stored as given: it is not checked against the four
      constants. The validator chain keeps its order. */
  function NewParameter<V>(name: string, location: string, validators: seq<V>): (p: Parameter<V>)
    ensures p.name == name && p.location == location && p.validators == validators
    ensures |p.validators| == |validators| && forall i :: 0 <= i < |validators| ==> p.validators[i] == validators[i]
  {
    Parameter(name, location, validators)
  }

  /** The four locations are distinct; three are lower case and COOKIE is
      spelled in capitals, so it differs from the OpenAPI location "cookie". */
  lemma LocationConstants()
    ensures PATH == "path" && QUERY == "query" && HEADER == "header"
    ensures COOKIE == "COOKIE" && COOKIE != "cookie"
    ensures |{PATH, QUERY, HEADER, COOKIE}| == 4
  {
  }
}
