/** The dynamically typed values a request's parameter table holds (Go's
    `interface{}` as the request code fills and inspects it). The variants are
    kept apart exactly where the getters' type switches tell them apart. */
module Values {

  datatype Value =
    | Null                               // JSON `null` (a nil interface)
    | Str(s: string)                     // string
    | Int(i: int)                        // int (never produced by the JSON decoder)
    | Float(f: real)                     // float64, kept as an exact real
    | Bool(b: bool)                      // bool
    | StrList(items: seq<string>)        // []string: a form field with several values
    | List(elems: seq<Value>)            // []interface{}: a JSON array
    | Object(fields: map<string, Value>) // map[string]interface{}: a JSON object

  type Params = map<string, Value>

  /** The shapes `encoding/json` produces when it decodes into an empty
      interface: numbers become float64, and neither int nor []string occurs. */
  predicate JsonDecoded(v: Value)
  {
    match v
    case Int(_) => false
    case StrList(_) => false
    case List(es) => forall i :: 0 <= i < |es| ==> JsonDecoded(es[i])
    case Object(fs) => forall k :: k in fs ==> JsonDecoded(fs[k])
    case _ => true
  }

  /** The dynamic type's name as Go prints it in a failed type assertion. */
  function GoTypeName(v: Value): string
  {
    match v
    case Null => "nil"
    case Str(_) => "string"
    case Int(_) => "int"
    case Float(_) => "float64"
    case Bool(_) => "bool"
    case StrList(_) => "[]string"
    case List(_) => "[]interface {}"
    case Object(_) => "map[string]interface {}"
  }
}
