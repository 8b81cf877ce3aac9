/** validator.go: the root revision of the validators. Presence is
    mandatory for every type check, and only native types pass them. */
module RootValidators {
  import opened Outcomes
  import opened GoStrings
  import opened Values
  import opened Requests

  datatype Validator =
    | VRequired
    | VIsString
    | VIsInt
    | VIsFloat
    | VIsBool
    | VIsArray
    | VIsMap
    | VStringLength(minLength: int, maxLength: int)
    | VRange(min: real, max: real)

  function RequiredMessage(name: string): ValidationError
  {
    Message("parameter " + name + " is required")
  }

  function TypeMessage(name: string, typeName: string): ValidationError
  {
    Message("parameter " + name + " must be of type '" + typeName + "'")
  }

  /** A type check: `VRequired` first, then the native type of the value. */
  function CheckType(r: Request, name: string, ok: Value -> bool, typeName: string): Option<ValidationError>
  {
    if name !in r.parameters then Some(RequiredMessage(name))
    else if ok(r.parameters[name]) then None
    else Some(TypeMessage(name, typeName))
  }

  /** `Validate`: `None` is a nil error. */
  function Validate(v: Validator, r: Request, name: string): Option<ValidationError>
  {
    match v
    case VRequired => if name in r.parameters then None else Some(RequiredMessage(name))
    case VIsString => CheckType(r, name, (x: Value) => x.Str?, "string")
    case VIsInt => CheckType(r, name, (x: Value) => x.Int?, "int")
    case VIsFloat => CheckType(r, name, (x: Value) => x.Float?, "float")
    case VIsBool => CheckType(r, name, (x: Value) => x.Bool?, "bool")
    case VIsArray => CheckType(r, name, (x: Value) => x.List?, "array")
    case VIsMap => CheckType(r, name, (x: Value) => x.Object?, "map")
    case VStringLength(lo, hi) =>
      var e := CheckType(r, name, (x: Value) => x.Str?, "string");
      if e.Some? then e
      else
        var n := ByteLen(r.parameters[name].s);
        if n < lo || n > hi then
          Some(Message("parameter " + name + " length must be between " + Itoa(lo) + " and " + Itoa(hi) + " characters"))
        else None
    case VRange(lo, hi) =>
      if name !in r.parameters then Some(RequiredMessage(name))
      else match r.parameters[name]
        case Int(i) => if (i as real) < lo || (i as real) > hi then Some(NotBetween(name, lo, hi)) else None
        case Float(f) => if f < lo || f > hi then Some(NotBetween(name, lo, hi)) else None
        case _ => Some(Message("parameter " + name + " must be a numeric value"))
  }

  /** The native variant each of the six type validators accepts. */
  predicate NativeMatch(v: Validator, x: Value)
  {
    match v
    case VIsString => x.Str?
    case VIsInt => x.Int?
    case VIsFloat => x.Float?
    case VIsBool => x.Bool?
    case VIsArray => x.List?
    case VIsMap => x.Object?
    case _ => true
  }

  predicate IsTypeCheck(v: Validator)
  {
    v.VIsString? || v.VIsInt? || v.VIsFloat? || v.VIsBool? || v.VIsArray? || v.VIsMap?
  }

  /** `VRequired` passes iff the name is present, whatever its value. */
  lemma RequiredIffPresent(r: Request, name: string)
    ensures Validate(VRequired, r, name).None? <==> name in r.parameters
    ensures name !in r.parameters ==> Validate(VRequired, r, name) == Some(Message("parameter " + name + " is required"))
  {
  }

  /** Every validator except `VRequired` first runs `VRequired` and hands
      back its error unchanged when the parameter is absent. */
  lemma AbsentGivesRequiredError(v: Validator, r: Request, name: string)
    requires name !in r.parameters
    ensures Validate(v, r, name) == Validate(VRequired, r, name)
  {
  }

  /** A present value passes a type check iff it has that native type: a
      numeric string fails `VIsInt`, an int fails `VIsFloat`, a list of
      strings fails `VIsArray`. */
  lemma TypeCheckIsNative(v: Validator, r: Request, name: string)
    requires IsTypeCheck(v) && name in r.parameters
    ensures Validate(v, r, name).None? <==> NativeMatch(v, r.parameters[name])
  {
  }

  /** `VStringLength` hands back `VIsString`'s error; a present string passes
      iff its byte length lies in [Min, Max]. */
  lemma StringLengthBounds(lo: int, hi: int, r: Request, name: string)
    ensures Validate(VIsString, r, name).Some? ==>
      Validate(VStringLength(lo, hi), r, name) == Validate(VIsString, r, name)
    ensures name in r.parameters && r.parameters[name].Str? ==>
      (Validate(VStringLength(lo, hi), r, name).None? <==> lo <= ByteLen(r.parameters[name].s) <= hi)
  {
  }

  /** `VRange` accepts only ints and floats, and a number passes iff it lies in
      [Min, Max]; every other value, numeric strings included, is not numeric. */
  lemma RangeBounds(lo: real, hi: real, r: Request, name: string)
    requires name in r.parameters
    ensures var x := r.parameters[name];
      && (x.Int? ==> (Validate(VRange(lo, hi), r, name).None? <==> lo <= x.i as real <= hi))
      && (x.Float? ==> (Validate(VRange(lo, hi), r, name).None? <==> lo <= x.f <= hi))
      && (!x.Int? && !x.Float? ==>
            Validate(VRange(lo, hi), r, name) == Some(Message("parameter " + name + " must be a numeric value")))
  {
  }
}
