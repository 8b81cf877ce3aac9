/** The request context of request.go: one name-to-value table merged from
    four sources, and the typed getters that read it. */
module Requests {
  import opened Outcomes
  import opened GoStrings
  import opened Values
  import opened Http

  /** `url.Values`: every name with the list of values it was given. */
  type Multimap = map<string, seq<string>>

  datatype Request = Request(httpRequest: HttpRequest, parameters: Params)

  /** What `req.ParseForm` fills in: the combined form and the POST form. */
  datatype Forms = Forms(form: Multimap, postForm: Multimap)

  /** What decoding the body as JSON gives: end of input (an empty body),
      a decoding error, or a decoded value. */
  datatype Body = EndOfInput | Malformed(error: string) | Decoded(value: Value)

  /** A form field with exactly one value becomes that string; any other
      number of values stays the list of strings. */
  function Collapse(values: seq<string>): Value
  {
    if |values| == 1 then Str(values[0]) else StrList(values)
  }

  function CollapseAll(m: Multimap): Params
  {
    map k | k in m :: Collapse(m[k])
  }

  /** The table `NewRequest` builds: every later source overwrites the
      earlier ones on a shared name. */
  function Merged(form: Multimap, query: Multimap, postForm: Multimap, body: Params): Params
  {
    CollapseAll(form) + CollapseAll(query) + CollapseAll(postForm) + body
  }

  /** Precedence of the merge: JSON body over POST form over query over form,
      and a name is present iff one of the sources has it. */
  lemma MergePrecedence(form: Multimap, query: Multimap, postForm: Multimap, body: Params, k: string)
    ensures var m := Merged(form, query, postForm, body);
      && (k in m <==> k in form || k in query || k in postForm || k in body)
      && (k in body ==> m[k] == body[k])
      && (k !in body && k in postForm ==> m[k] == Collapse(postForm[k]))
      && (k !in body && k !in postForm && k in query ==> m[k] == Collapse(query[k]))
      && (k !in body && k !in postForm && k !in query && k in form ==> m[k] == Collapse(form[k]))
  {
  }

  /** One value is stored as that string; several are stored as the list, in order. */
  lemma CollapseShape(values: seq<string>)
    ensures |values| == 1 ==> Collapse(values) == Str(values[0])
    ensures |values| != 1 ==> Collapse(values).StrList? && Collapse(values).items == values
  {
  }

  /** One of the three form loops of `NewRequest`: store every field of `m`
      over the table built so far. */
  method OverlayForm(params: Params, m: Multimap) returns (p: Params)
    ensures p == params + CollapseAll(m)
  {
    p := params;
    var todo := m.Keys;
    while todo != {}
      invariant todo <= m.Keys
      invariant forall k :: k in p <==> k in params || (k in m && k !in todo)
      invariant forall k :: k in p ==> p[k] == if k in m && k !in todo then Collapse(m[k]) else params[k]
      decreases todo
    {
      var k :| k in todo;
      p := p[k := Collapse(m[k])];
      todo := todo - {k};
    }
    assert p == params + CollapseAll(m);
  }

  /** The body loop of `NewRequest`: store every field of the decoded object. */
  method OverlayObject(params: Params, fields: Params) returns (p: Params)
    ensures p == params + fields
  {
    p := params;
    var todo := fields.Keys;
    while todo != {}
      invariant todo <= fields.Keys
      invariant forall k :: k in p <==> k in params || (k in fields && k !in todo)
      invariant forall k :: k in p ==> p[k] == if k in fields && k !in todo then fields[k] else params[k]
      decreases todo
    {
      var k :| k in todo;
      p := p[k := fields[k]];
      todo := todo - {k};
    }
    assert p == params + fields;
  }

  /** The panic of the unchecked assertion `bodyParams.(map[string]interface{})`. */
  function AssertionPanic(dynamicType: string): string
  {
    "interface conversion: interface {} is " + dynamicType + ", not map[string]interface {}"
  }

  /** `NewRequest`. `forms` is the outcome of `req.ParseForm`, `query` is
      `req.URL.Query()`, `body` the outcome of decoding the body. A form
      parse failure or a body decode error other than end of input is
      returned as an error. After a successful decode the body is asserted
      to be an object without a check, so an empty body (nothing decoded) or
      a body that is not a JSON object panics. */
  method NewRequest(req: HttpRequest, forms: Result<Forms>, query: Multimap, body: Body)
    returns (r: Guarded<Result<Request>>)
    ensures forms.Err? ==> r == Returns(Err(forms.message))
    ensures forms.Ok? && body.Malformed? ==> r == Returns(Err(body.error))
    ensures forms.Ok? && body.EndOfInput? ==> r == Aborts(AssertionPanic("nil"))
    ensures forms.Ok? && body.Decoded? && !body.value.Object? ==>
      r == Aborts(AssertionPanic(GoTypeName(body.value)))
    ensures forms.Ok? && body.Decoded? && body.value.Object? ==>
      r == Returns(Ok(Request(req, Merged(forms.value.form, query, forms.value.postForm, body.value.fields))))
  {
    if forms.Err? {
      return Returns(Err(forms.message));
    }
    var params: Params := map[];
    params := OverlayForm(params, forms.value.form);
    params := OverlayForm(params, query);
    params := OverlayForm(params, forms.value.postForm);
    if body.Malformed? {
      return Returns(Err(body.error));
    }
    if body.EndOfInput? {
      return Aborts(AssertionPanic("nil"));
    }
    if !body.value.Object? {
      return Aborts(AssertionPanic(GoTypeName(body.value)));
    }
    params := OverlayObject(params, body.value.fields);
    assert params == Merged(forms.value.form, query, forms.value.postForm, body.value.fields);
    return Returns(Ok(Request(req, params)));
  }

  /** `NewRequest` as the end-of-input check intends it: a request without a
      body (every plain GET) has no body parameters instead of panicking.
      Every other case is as written. */
  method NewRequestCorrected(req: HttpRequest, forms: Result<Forms>, query: Multimap, body: Body)
    returns (r: Guarded<Result<Request>>)
    ensures forms.Err? ==> r == Returns(Err(forms.message))
    ensures forms.Ok? && body.Malformed? ==> r == Returns(Err(body.error))
    ensures forms.Ok? && body.EndOfInput? ==>
      r == Returns(Ok(Request(req, Merged(forms.value.form, query, forms.value.postForm, map[]))))
    ensures forms.Ok? && body.Decoded? && !body.value.Object? ==>
      r == Aborts(AssertionPanic(GoTypeName(body.value)))
    ensures forms.Ok? && body.Decoded? && body.value.Object? ==>
      r == Returns(Ok(Request(req, Merged(forms.value.form, query, forms.value.postForm, body.value.fields))))
  {
    if forms.Err? || !body.EndOfInput? {
      r := NewRequest(req, forms, query, body);
      return;
    }
    var params: Params := map[];
    params := OverlayForm(params, forms.value.form);
    params := OverlayForm(params, query);
    params := OverlayForm(params, forms.value.postForm);
    var none: Params := map[];
    assert params == Merged(forms.value.form, query, forms.value.postForm, none);
    return Returns(Ok(Request(req, params)));
  }

  /** Without a body, a single query value is what `GetString` reads, unless
      the POST form has the same name. */
  lemma {:induction false} BodylessQueryReadable(req: HttpRequest, form: Multimap, query: Multimap, postForm: Multimap, k: string, s: string)
    requires k in query && query[k] == [s] && k !in postForm
    ensures GetString(Request(req, Merged(form, query, postForm, map[])), k) == Ok(s)
  {
    MergePrecedence(form, query, postForm, map[], k);
  }

  // ---------------------------------------------------------------- getters

  function NotFound(name: string): string
  {
    "parameter '" + name + "' not found"
  }

  function GetString(r: Request, name: string): Result<string>
  {
    if name !in r.parameters then Err(NotFound(name))
    else match r.parameters[name]
      case Str(s) => Ok(s)
      case _ => Err("parameter '" + name + "' is not a string")
  }

  function GetInt(r: Request, name: string): Result<int>
  {
    if name !in r.parameters then Err(NotFound(name))
    else match r.parameters[name]
      case Int(i) => Ok(i)
      case Str(s) =>
        (match Atoi(s)
         case Ok(i) => Ok(i)
         case Err(e) => Err("parameter '" + name + "' is not an integer: " + e))
      case _ => Err("parameter '" + name + "' is not an integer")
  }

  /** `parseFloat` stands for `strconv.ParseFloat(_, 64)`, which is not modelled. */
  function GetFloat(r: Request, name: string, parseFloat: string -> Result<real>): Result<real>
  {
    if name !in r.parameters then Err(NotFound(name))
    else match r.parameters[name]
      case Float(f) => Ok(f)
      case Str(s) =>
        (match parseFloat(s)
         case Ok(f) => Ok(f)
         case Err(e) => Err("parameter '" + name + "' is not a float: " + e))
      case _ => Err("parameter '" + name + "' is not a float")
  }

  function GetBool(r: Request, name: string): Result<bool>
  {
    if name !in r.parameters then Err(NotFound(name))
    else match r.parameters[name]
      case Bool(b) => Ok(b)
      case Str(s) =>
        (match ParseBool(s)
         case Ok(b) => Ok(b)
         case Err(e) => Err("parameter '" + name + "' is not a boolean: " + e))
      case _ => Err("parameter '" + name + "' is not a boolean")
  }

  /** Only a generic list is an array: a collapsed multi-valued form field
      (a list of strings) is not. */
  function GetArray(r: Request, name: string): (res: Result<seq<Value>>)
    ensures res.Ok? <==> name in r.parameters && r.parameters[name].List?
    ensures res.Ok? ==> r.parameters[name] == List(res.value)
    ensures res.Err? ==> res.message == "parameter " + name + " not found or not an array"
  {
    if name in r.parameters && r.parameters[name].List? then Ok(r.parameters[name].elems)
    else Err("parameter " + name + " not found or not an array")
  }

  function GetMap(r: Request, name: string): (res: Result<Params>)
    ensures res.Ok? <==> name in r.parameters && r.parameters[name].Object?
    ensures res.Ok? ==> r.parameters[name] == Object(res.value)
    ensures res.Err? ==> res.message == "parameter " + name + " not found or not a map"
  {
    if name in r.parameters && r.parameters[name].Object? then Ok(r.parameters[name].fields)
    else Err("parameter " + name + " not found or not a map")
  }

  /** `GetIntArray`: a generic list whose every element is a native int,
      copied in order into a fresh array. */
  method GetIntArray(r: Request, name: string) returns (res: Result<seq<int>>)
    ensures name !in r.parameters ==> res == Err(NotFound(name))
    ensures name in r.parameters && !r.parameters[name].List? ==>
      res == Err("parameter '" + name + "' is not an array")
    ensures name in r.parameters && r.parameters[name].List? ==>
      var es := r.parameters[name].elems;
      && (res.Ok? <==> forall i :: 0 <= i < |es| ==> es[i].Int?)
      && (res.Ok? ==> |res.value| == |es| && forall i :: 0 <= i < |es| ==> es[i] == Int(res.value[i]))
      && (res.Err? ==> res.message == "parameter '" + name + "' contains a non-integer value")
  {
    if name !in r.parameters {
      return Err(NotFound(name));
    }
    if !r.parameters[name].List? {
      return Err("parameter '" + name + "' is not an array");
    }
    var arr := r.parameters[name].elems;
    var intArr := new int[|arr|];
    for i := 0 to |arr|
      invariant forall j :: 0 <= j < i ==> arr[j] == Int(intArr[j])
    {
      if !arr[i].Int? {
        return Err("parameter '" + name + "' contains a non-integer value");
      }
      intArr[i] := arr[i].i;
    }
    return Ok(intArr[..]);
  }

  /** `GetStringBoolMap`: an object whose every field is a native bool,
      copied key by key. */
  method GetStringBoolMap(r: Request, name: string) returns (res: Result<map<string, bool>>)
    ensures name !in r.parameters ==> res == Err(NotFound(name))
    ensures name in r.parameters && !r.parameters[name].Object? ==>
      res == Err("parameter '" + name + "' is not a map")
    ensures name in r.parameters && r.parameters[name].Object? ==>
      var m := r.parameters[name].fields;
      && (res.Ok? <==> forall k :: k in m ==> m[k].Bool?)
      && (res.Ok? ==> res.value.Keys == m.Keys && forall k :: k in m ==> m[k] == Bool(res.value[k]))
      && (res.Err? ==> res.message == "parameter '" + name + "' contains a non-boolean value")
  {
    if name !in r.parameters {
      return Err(NotFound(name));
    }
    if !r.parameters[name].Object? {
      return Err("parameter '" + name + "' is not a map");
    }
    var m := r.parameters[name].fields;
    var boolMap: map<string, bool> := map[];
    var todo := m.Keys;
    while todo != {}
      invariant todo <= m.Keys
      invariant boolMap.Keys == m.Keys - todo
      invariant forall k :: k in boolMap ==> m[k] == Bool(boolMap[k])
      decreases todo
    {
      var k :| k in todo;
      if !m[k].Bool? {
        return Err("parameter '" + name + "' contains a non-boolean value");
      }
      boolMap := boolMap[k := m[k].b];
      todo := todo - {k};
    }
    return Ok(boolMap);
  }

  // ---------------------------------------------------------------- properties

  /** `GetString` gives the stored string itself, and names the two ways it fails. */
  lemma GetStringCases(r: Request, name: string)
    ensures name !in r.parameters ==> GetString(r, name) == Err(NotFound(name))
    ensures name in r.parameters && !r.parameters[name].Str? ==>
      GetString(r, name) == Err("parameter '" + name + "' is not a string")
    ensures GetString(r, name).Ok? ==> r.parameters[name] == Str(GetString(r, name).value)
  {
  }

  /** `GetInt` returns a stored int unchanged and reads back the decimal text
      of any `int64`, so coercion is idempotent on both representations. */
  lemma GetIntCoercion(r: Request, name: string, n: int)
    requires name in r.parameters
    requires r.parameters[name] == Int(n) || (r.parameters[name] == Str(Itoa(n)) && INT64_MIN <= n <= INT64_MAX)
    ensures GetInt(r, name) == Ok(n)
  {
    if r.parameters[name].Str? {
      AtoiItoa(n);
    }
  }

  /** `GetInt` rejects a missing name, every stored type other than int and
      string, and a string `strconv.Atoi` rejects, whose error it wraps. */
  lemma GetIntRejects(r: Request, name: string)
    ensures name !in r.parameters ==> GetInt(r, name) == Err(NotFound(name))
    ensures name in r.parameters && !r.parameters[name].Int? && !r.parameters[name].Str? ==>
      GetInt(r, name) == Err("parameter '" + name + "' is not an integer")
    ensures name in r.parameters && r.parameters[name].Str? && Atoi(r.parameters[name].s).Err? ==>
      GetInt(r, name) == Err("parameter '" + name + "' is not an integer: " + Atoi(r.parameters[name].s).message)
  {
  }

  /** A string that is empty, a sign alone, or a sign (or none) before text
      with a non-digit is a syntax error of `strconv.Atoi`, provided the
      digits before the first non-digit do not already pass 2^64 - 1. */
  lemma {:induction false} GetIntSyntaxError(r: Request, name: string, sign: string, body: string)
    requires sign == "" || sign == "-" || sign == "+"
    requires body == [] || !AllDigits(body)
    requires sign == "" && body != [] ==> body[0] != '-' && body[0] != '+'
    requires DigitsValue(LeadingDigits(body)) <= UINT64_MAX
    requires name in r.parameters && r.parameters[name] == Str(sign + body)
    ensures GetInt(r, name) == Err("parameter '" + name + "' is not an integer: " + SyntaxError("Atoi", sign + body))
  {
    AtoiSyntaxError(sign, body);
  }

  /** Digits whose value passes 2^64 - 1 give the range error whatever text
      follows them, a non-digit included. */
  lemma {:induction false} GetIntDigitOverflow(r: Request, name: string, sign: string, digits: string, rest: string)
    requires sign == "" || sign == "-" || sign == "+"
    requires AllDigits(digits) && DigitsValue(digits) > UINT64_MAX
    requires name in r.parameters && r.parameters[name] == Str(sign + digits + rest)
    ensures GetInt(r, name) == Err("parameter '" + name + "' is not an integer: " + RangeError("Atoi", sign + digits + rest))
  {
    AtoiDigitOverflow(sign, digits, rest);
  }

  /** Decimal text outside the int64 range is a range error of `strconv.Atoi`. */
  lemma {:induction false} GetIntRangeError(r: Request, name: string, m: nat, negative: bool)
    requires if negative then m > -INT64_MIN else m > INT64_MAX
    requires name in r.parameters
    requires r.parameters[name] == Str(if negative then "-" + NatToString(m) else NatToString(m))
    ensures GetInt(r, name) == Err("parameter '" + name + "' is not an integer: " + RangeError("Atoi", r.parameters[name].s))
  {
    if negative {
      AtoiNegativeOverflow(m);
    } else {
      AtoiUnsignedOverflow(m);
    }
  }

  /** `GetFloat` returns a stored float64 unchanged, hands a string to the
      float parser, and rejects every other type, an int included. */
  lemma GetFloatCoercion(r: Request, name: string, parseFloat: string -> Result<real>)
    ensures name !in r.parameters ==> GetFloat(r, name, parseFloat) == Err(NotFound(name))
    ensures name in r.parameters && r.parameters[name].Float? ==> GetFloat(r, name, parseFloat) == Ok(r.parameters[name].f)
    ensures name in r.parameters && r.parameters[name].Str? ==>
      (GetFloat(r, name, parseFloat).Ok? <==> parseFloat(r.parameters[name].s).Ok?) &&
      (GetFloat(r, name, parseFloat).Ok? ==> GetFloat(r, name, parseFloat).value == parseFloat(r.parameters[name].s).value)
    ensures name in r.parameters && !r.parameters[name].Float? && !r.parameters[name].Str? ==>
      GetFloat(r, name, parseFloat) == Err("parameter '" + name + "' is not a float")
  {
  }

  /** `GetBool` returns a stored bool unchanged, reads a string as
      `strconv.ParseBool` does, and rejects every other type (an int included). */
  lemma GetBoolCoercion(r: Request, name: string)
    ensures name in r.parameters && r.parameters[name].Bool? ==> GetBool(r, name) == Ok(r.parameters[name].b)
    ensures name in r.parameters && r.parameters[name].Str? ==>
      GetBool(r, name).Ok? == ParseBool(r.parameters[name].s).Ok? &&
      (GetBool(r, name).Ok? ==> GetBool(r, name).value == ParseBool(r.parameters[name].s).value)
    ensures name in r.parameters && !r.parameters[name].Bool? && !r.parameters[name].Str? ==>
      GetBool(r, name) == Err("parameter '" + name + "' is not a boolean")
    ensures name !in r.parameters ==> GetBool(r, name).Err?
  {
  }

  /** A field given several times in a form becomes a list of strings, which
      `GetArray` rejects. */
  lemma {:induction false} RepeatedFieldIsNotArray(req: HttpRequest, forms: Forms, query: Multimap, body: Params, k: string)
    requires k !in body && k !in forms.postForm && k !in query && k in forms.form && |forms.form[k]| >= 2
    ensures var r := Request(req, Merged(forms.form, query, forms.postForm, body));
      && r.parameters[k] == StrList(forms.form[k])
      && GetArray(r, k).Err?
  {
    MergePrecedence(forms.form, query, forms.postForm, body, k);
  }

  /** Whatever the form, query and POST form hold, a string in the JSON body
      is what `GetString` returns for that name. */
  lemma {:induction false} BodyStringWins(req: HttpRequest, form: Multimap, query: Multimap, postForm: Multimap, body: Params, k: string, s: string)
    requires k in body && body[k] == Str(s)
    ensures GetString(Request(req, Merged(form, query, postForm, body)), k) == Ok(s)
  {
    MergePrecedence(form, query, postForm, body, k);
  }

  /** The JSON decoder gives every number as a float64, so `GetInt` on a
      number that came from the body fails, even when a query value for the
      same name would have parsed. */
  lemma {:induction false} JsonNumberIsNotInt(req: HttpRequest, form: Multimap, query: Multimap, postForm: Multimap, body: Params, k: string)
    requires k in body && JsonDecoded(body[k]) && body[k].Float?
    ensures GetInt(Request(req, Merged(form, query, postForm, body)), k) == Err("parameter '" + k + "' is not an integer")
  {
    MergePrecedence(form, query, postForm, body, k);
  }
}
