/** openapi3.go: the projection of the registry onto an OpenAPI 3.0.0
    document, and the route that serves it. The projection reads fields of
    views and of the registry that other revisions declare; `ViewInfo` and
    `AppInfo` hold exactly those fields. */
module OpenApi {
  import opened Outcomes
  import opened GoStrings
  import opened Http
  import opened Parameters
  import V = Validators
  import Views
  import opened Apps

  datatype ViewInfo = ViewInfo(
    path: string,
    methods: set<nat>,
    parameters: map<string, Parameter<V.Validator>>,
    description: string,
    tags: seq<string>,
    deprecated: bool)

  datatype AppInfo = AppInfo(
    title: string,
    version: string,
    description: string,
    license: License,
    termOfServiceURL: string,
    contact: Contact,
    security: seq<SecurityRequirement>,
    tags: seq<Tag>,
    views: map<string, ViewInfo>,
    openapiSchemaURL: string)

  datatype ParamObject = ParamObject(name: string, location: string, required: bool, schema: V.SchemaValue, deprecated: bool)
  datatype ResponseObject = ResponseObject(description: string)
  datatype Operation = Operation(
    description: string,
    tags: seq<string>,
    parameters: seq<ParamObject>,
    responses: map<string, ResponseObject>,
    deprecated: bool)

  /** A path item: method name to operation. */
  type PathItem = map<string, Operation>

  datatype Info = Info(title: string, version: string, description: string, license: License, termsOfService: string, contact: Contact)
  datatype Document = Document(openapi: string, info: Info, security: seq<SecurityRequirement>, tags: seq<Tag>, paths: map<string, PathItem>)

  /** `methodCodeToString`, which is not part of this model, taken as the
      inverse of `methodStringToCode`; a code outside the table reads as "". */
  function MethodName(code: int): (m: string)
    ensures 0 <= code < |Views.METHOD_NAMES| ==> m == Views.METHOD_NAMES[code]
    ensures !(0 <= code < |Views.METHOD_NAMES|) ==> m == ""
  {
    if 0 <= code < |Views.METHOD_NAMES| then Views.METHOD_NAMES[code] else ""
  }

  /** Names and codes go back and forth. */
  lemma MethodNameInvertsCode(code: int)
    requires 0 <= code < |Views.METHOD_NAMES|
    ensures Views.MethodCode(MethodName(code)) == code
  {
    Views.MethodCodesCount();
  }

  /** `PathItem.SetOperation`: the nine method names are supported, any other
      name panics. */
  function SetOperation(item: PathItem, methodName: string, op: Operation): (g: Guarded<PathItem>)
    ensures g.Returns? <==> methodName in Views.METHOD_NAMES
    ensures g.Returns? ==> g.value == item[methodName := op]
  {
    if methodName in Views.METHOD_NAMES then Returns(item[methodName := op])
    else Aborts("unsupported HTTP method " + Quote(methodName))
  }

  const VALIDATION_ERROR_DESCRIPTION := "Error when validating request against validators"

  /** `openapi3.NewResponses()` (a "default" response with an empty
      description) plus the validation error response. */
  const RESPONSES: map<string, ResponseObject> :=
    map["default" := ResponseObject(""), "422" := ResponseObject(VALIDATION_ERROR_DESCRIPTION)]

  // ---------------------------------------------------------------- specification

  predicate HasRequired(vs: seq<V.Validator>)
  {
    exists i :: 0 <= i < |vs| && vs[i].Required?
  }

  /** The parameter object of one table entry. */
  function ParamSpec(name: string, p: Parameter<V.Validator>): ParamObject
  {
    ParamObject(name, p.location, HasRequired(p.validators), V.ChainSchema(p.validators), false)
  }

  /** `ps` lists every parameter of the table once, in some order. */
  predicate ParametersAgree(ps: seq<ParamObject>, params: map<string, Parameter<V.Validator>>)
  {
    && (forall i :: 0 <= i < |ps| ==> ps[i].name in params && ps[i] == ParamSpec(ps[i].name, params[ps[i].name]))
    && (forall i, j :: 0 <= i < j < |ps| ==> ps[i].name != ps[j].name)
    && (forall k :: k in params ==> exists i :: 0 <= i < |ps| && ps[i].name == k)
  }

  predicate OperationAgrees(op: Operation, v: ViewInfo)
  {
    && op.description == v.description
    && op.tags == v.tags
    && op.deprecated == v.deprecated
    && op.responses == RESPONSES
    && ParametersAgree(op.parameters, v.parameters)
  }

  predicate MethodsKnown(v: ViewInfo)
  {
    forall m :: m in v.methods ==> 0 <= m < |Views.METHOD_NAMES|
  }

  function MethodNames(ms: set<nat>): set<string>
  {
    set m | m in ms :: MethodName(m)
  }

  /** One operation per declared method, under that method's name, added to
      what the item held before. */
  predicate PathItemAgrees(item: PathItem, before: PathItem, v: ViewInfo)
  {
    && item.Keys == before.Keys + MethodNames(v.methods)
    && (forall m :: m in v.methods ==> OperationAgrees(item[MethodName(m)], v))
    && (forall n :: n in before && n !in MethodNames(v.methods) ==> item[n] == before[n])
  }

  /** Each view is stored under its own path, as the registry keeps it. */
  predicate Registered(app: AppInfo)
  {
    forall k :: k in app.views ==> app.views[k].path == k
  }

  predicate DocumentAgrees(d: Document, app: AppInfo)
  {
    && d.openapi == "3.0.0"
    && d.info == Info(app.title, app.version, app.description, app.license, app.termOfServiceURL, app.contact)
    && d.security == app.security
    && d.tags == app.tags
    && d.paths.Keys == app.views.Keys
    && (forall k :: k in app.views ==> PathItemAgrees(d.paths[k], map[], app.views[k]))
  }

  // ---------------------------------------------------------------- projection

  /** One parameter: a fresh schema that every validator of the chain updates
      in chain order, and the required flag. */
  method ProjectParameter(name: string, p: Parameter<V.Validator>) returns (po: ParamObject)
    ensures po == ParamSpec(name, p)
  {
    var vs := p.validators;
    var schema := new V.Schema();
    var required := false;
    var i := 0;
    while i < |vs|
      invariant 0 <= i <= |vs|
      invariant schema.Value() == V.ChainSchema(vs[..i])
      invariant required <==> HasRequired(vs[..i])
    {
      if vs[i].Required? {
        required := true;
      }
      V.UpdateOpenAPISchema(vs[i], schema);
      assert vs[..i + 1][..i] == vs[..i];
      assert HasRequired(vs[..i + 1]) <==> HasRequired(vs[..i]) || vs[i].Required? by {
        if HasRequired(vs[..i]) {
          var j :| 0 <= j < i && vs[..i][j].Required?;
          assert vs[..i + 1][j] == vs[..i][j];
        }
        if vs[i].Required? {
          assert vs[..i + 1][i] == vs[i];
        }
      }
      i := i + 1;
    }
    assert vs[..|vs|] == vs;
    po := ParamObject(name, p.location, required, schema.Value(), false);
  }

  /** The parameter list, appended in the table's iteration order. */
  method ProjectParameters(params: map<string, Parameter<V.Validator>>) returns (ps: seq<ParamObject>)
    ensures ParametersAgree(ps, params)
  {
    ps := [];
    var todo := params.Keys;
    while todo != {}
      invariant todo <= params.Keys
      invariant forall i :: 0 <= i < |ps| ==> ps[i].name in params && ps[i].name !in todo && ps[i] == ParamSpec(ps[i].name, params[ps[i].name])
      invariant forall i, j :: 0 <= i < j < |ps| ==> ps[i].name != ps[j].name
      invariant forall k :: k in params && k !in todo ==> exists i :: 0 <= i < |ps| && ps[i].name == k
      decreases todo
    {
      var k :| k in todo;
      var po := ProjectParameter(k, params[k]);
      var before := ps;
      ps := ps + [po];
      assert forall i :: 0 <= i < |before| ==> ps[i] == before[i];
      assert ps[|ps| - 1].name == k;
      todo := todo - {k};
    }
  }

  method ProjectOperation(v: ViewInfo) returns (op: Operation)
    ensures OperationAgrees(op, v)
  {
    var ps := ProjectParameters(v.parameters);
    op := Operation(v.description, v.tags, ps, RESPONSES, v.deprecated);
  }

  /** The operations of one view, set on its path item in the iteration order
      of its method set; an unknown code panics in `SetOperation`. */
  method ProjectPathItem(v: ViewInfo, item: PathItem) returns (g: Guarded<PathItem>)
    ensures g.Returns? <==> MethodsKnown(v)
    ensures g.Returns? ==> PathItemAgrees(g.value, item, v)
  {
    var cur := item;
    var todo := v.methods;
    while todo != {}
      invariant todo <= v.methods
      invariant forall m :: m in v.methods && m !in todo ==> 0 <= m < |Views.METHOD_NAMES|
      invariant cur.Keys == item.Keys + MethodNames(v.methods - todo)
      invariant forall m :: m in v.methods && m !in todo ==> OperationAgrees(cur[MethodName(m)], v)
      invariant forall n :: n in item && n !in MethodNames(v.methods - todo) ==> cur[n] == item[n]
      decreases todo
    {
      var m :| m in todo;
      var op := ProjectOperation(v);
      var s := SetOperation(cur, MethodName(m), op);
      if s.Aborts? {
        assert !(0 <= m < |Views.METHOD_NAMES|);
        return Aborts(s.reason);
      }
      assert MethodNames(v.methods - (todo - {m})) == MethodNames(v.methods - todo) + {MethodName(m)};
      cur := s.value;
      todo := todo - {m};
    }
    assert v.methods - todo == v.methods;
    return Returns(cur);
  }

  /** `paths[p]`, or a new path item when there is none. */
  function ItemAt(paths: map<string, PathItem>, p: string): (item: PathItem)
    ensures p in paths ==> item == paths[p]
    ensures p !in paths ==> item == map[]
  {
    if p in paths then paths[p] else map[]
  }

  /** `openapi3Schema` without the final marshalling: one path item per view,
      and the registry's metadata verbatim. */
  method Openapi3Schema(app: AppInfo) returns (g: Guarded<Document>)
    requires Registered(app)
    ensures g.Returns? <==> forall k :: k in app.views ==> MethodsKnown(app.views[k])
    ensures g.Returns? ==> DocumentAgrees(g.value, app)
  {
    var paths: map<string, PathItem> := map[];
    var todo := app.views.Keys;
    while todo != {}
      invariant todo <= app.views.Keys
      invariant paths.Keys == app.views.Keys - todo
      invariant forall k :: k in paths ==> MethodsKnown(app.views[k]) && PathItemAgrees(paths[k], map[], app.views[k])
      decreases todo
    {
      var k :| k in todo;
      var v := app.views[k];
      var item := ItemAt(paths, v.path);
      var r := ProjectPathItem(v, item);
      if r.Aborts? {
        return Aborts(r.reason);
      }
      paths := paths[v.path := r.value];
      todo := todo - {k};
    }
    var info := Info(app.title, app.version, app.description, app.license, app.termOfServiceURL, app.contact);
    return Returns(Document("3.0.0", info, app.security, app.tags, paths));
  }

  // ---------------------------------------------------------------- properties

  /** Every operation declares the validation error response, whether or not
      the view has parameters, and a parameter is required iff its chain holds
      `Required`. */
  lemma OperationShape(op: Operation, v: ViewInfo, i: int)
    requires OperationAgrees(op, v) && 0 <= i < |op.parameters|
    ensures "422" in op.responses && op.responses["422"].description == VALIDATION_ERROR_DESCRIPTION
    ensures var p := op.parameters[i];
      p.name in v.parameters && p.location == v.parameters[p.name].location && !p.deprecated &&
      (p.required <==> exists j :: 0 <= j < |v.parameters[p.name].validators| && v.parameters[p.name].validators[j].Required?)
  {
  }

  /** The parameter list has exactly as many entries as the table. */
  lemma {:induction false} ParametersCount(ps: seq<ParamObject>, params: map<string, Parameter<V.Validator>>)
    requires ParametersAgree(ps, params)
    ensures |ps| == |params|
  {
    var names := set i | 0 <= i < |ps| :: ps[i].name;
    assert names == params.Keys;
    DistinctNamesCount(ps);
  }

  lemma {:induction false} DistinctNamesCount(ps: seq<ParamObject>)
    requires forall i, j :: 0 <= i < j < |ps| ==> ps[i].name != ps[j].name
    ensures |set i | 0 <= i < |ps| :: ps[i].name| == |ps|
  {
    if ps != [] {
      var init := ps[..|ps| - 1];
      DistinctNamesCount(init);
      var a := set i | 0 <= i < |init| :: init[i].name;
      var b := set i | 0 <= i < |ps| :: ps[i].name;
      assert b == a + {ps[|ps| - 1].name};
      assert ps[|ps| - 1].name !in a;
    }
  }

  const ADD_CHAIN: seq<V.Validator> := [V.Required, V.IsInt, V.Range(0.0, 100.0)]

  /** The operation of a view whose parameters `a` and `b` each carry
      `Required`, `IsInt` and `Range(0, 100)`: both are documented as
      required query `int64` integers between 0 and 100, beside the 422
      response. */
  lemma AddOperation(op: Operation, v: ViewInfo)
    requires OperationAgrees(op, v)
    requires v.parameters.Keys == {"a", "b"}
    requires forall n :: n in v.parameters ==> v.parameters[n] == NewParameter(n, QUERY, ADD_CHAIN)
    ensures "422" in op.responses
    ensures |op.parameters| == 2
    ensures forall i :: 0 <= i < 2 ==>
              op.parameters[i].required && op.parameters[i].location == QUERY &&
              op.parameters[i].schema == V.SchemaValue("integer", "int64", Some(0.0), Some(100.0), 0, None)
  {
    ParametersCount(op.parameters, v.parameters);
    V.RequiredIntRangeSchemaAt(0.0, 100.0);
    assert HasRequired(ADD_CHAIN) by {
      assert ADD_CHAIN[0].Required?;
    }
    forall i | 0 <= i < |op.parameters|
      ensures op.parameters[i] == ParamSpec(op.parameters[i].name, NewParameter(op.parameters[i].name, QUERY, ADD_CHAIN))
    {
    }
  }

  /** `GET /add` in the whole document: its path item holds a GET operation
      of that shape. */
  lemma AddScenario(d: Document, app: AppInfo)
    requires DocumentAgrees(d, app)
    requires "/add" in app.views && app.views["/add"].methods == {Views.GET}
    requires app.views["/add"].parameters.Keys == {"a", "b"}
    requires forall n :: n in app.views["/add"].parameters ==> app.views["/add"].parameters[n] == NewParameter(n, QUERY, ADD_CHAIN)
    ensures "GET" in d.paths["/add"]
    ensures var op := d.paths["/add"]["GET"];
      && "422" in op.responses
      && |op.parameters| == 2
      && forall i :: 0 <= i < 2 ==>
           op.parameters[i].required && op.parameters[i].location == QUERY &&
           op.parameters[i].schema == V.SchemaValue("integer", "int64", Some(0.0), Some(100.0), 0, None)
  {
    var v := app.views["/add"];
    var item := d.paths["/add"];
    assert PathItemAgrees(item, map[], v);
    assert Views.GET in v.methods && MethodName(Views.GET) == "GET";
    AddOperation(item["GET"], v);
  }

  // ---------------------------------------------------------------- serving

  /** What a handler writes: status, header and body. */
  datatype Reply = Reply(status: int, header: map<string, string>, body: seq<Byte>)

  /** `http.Error`: plain text, no sniffing, the text and a newline. */
  function ErrorReply(code: int): Reply
  {
    Reply(code, map["Content-Type" := "text/plain; charset=utf-8", "X-Content-Type-Options" := "nosniff"],
          Encode(StatusText(code) + "\n"))
  }

  /** The schema route: registered at the registry's schema URL, with the
      marshalled document computed once at registration. */
  datatype SchemaRoute = SchemaRoute(url: string, schema: Result<seq<Byte>>)

  /** `registerDocs`' schema part. `marshal` stands for `MarshalJSON`. A panic
      of the projection escapes the registration. */
  method RegisterDocs(app: AppInfo, marshal: Document -> Result<seq<Byte>>) returns (g: Guarded<SchemaRoute>)
    requires Registered(app)
    ensures g.Returns? <==> forall k :: k in app.views ==> MethodsKnown(app.views[k])
    ensures g.Returns? ==>
              (g.value.url == app.openapiSchemaURL && exists d :: DocumentAgrees(d, app) && g.value.schema == marshal(d))
  {
    var doc := Openapi3Schema(app);
    if doc.Aborts? {
      return Aborts(doc.reason);
    }
    return Returns(SchemaRoute(app.openapiSchemaURL, marshal(doc.value)));
  }

  /** The schema handler: 405 for anything but GET, 500 when the document
      could not be built, and otherwise the cached bytes as JSON. */
  function SchemaHandler(route: SchemaRoute, req: HttpRequest): (rep: Reply)
    ensures req.httpMethod != "GET" ==> rep == ErrorReply(StatusMethodNotAllowed) && rep.status == 405
    ensures req.httpMethod == "GET" && route.schema.Err? ==> rep == ErrorReply(StatusInternalServerError) && rep.status == 500
    ensures req.httpMethod == "GET" && route.schema.Ok? ==>
      rep.status == StatusOK && rep.body == route.schema.value && rep.header == map["Content-Type" := "application/json"]
  {
    if req.httpMethod != "GET" then ErrorReply(StatusMethodNotAllowed)
    else if route.schema.Err? then ErrorReply(StatusInternalServerError)
    else Reply(StatusOK, map["Content-Type" := "application/json"], route.schema.value)
  }
}
