/** view.go: the route builder. A view keeps a set of method codes, a
    parameter table, a description and an action; the builder calls abort
    when they come out of order. */
module Views {
  import opened Outcomes
  import opened Http
  import opened Parameters
  import RootValidators

  const GET := 0
  const POST := 1
  const PATCH := 2
  const DELETE := 3
  const PUT := 4
  const HEAD := 5
  const OPTIONS := 6
  const CONNECT := 7
  const TRACE := 8

  /** The method names, each at the index of its code. */
  const METHOD_NAMES: seq<string> := ["GET", "POST", "PATCH", "DELETE", "PUT", "HEAD", "OPTIONS", "CONNECT", "TRACE"]

  /** `methodStringToCode`. */
  const METHOD_CODES: map<string, int> := map[
    "GET" := GET, "POST" := POST, "PATCH" := PATCH, "DELETE" := DELETE, "PUT" := PUT,
    "HEAD" := HEAD, "OPTIONS" := OPTIONS, "CONNECT" := CONNECT, "TRACE" := TRACE]

  /** `methodStringToCode[m]`: a name missing from the table reads as the zero
      value, which is GET's code. */
  function MethodCode(m: string): (c: nat)
    ensures 0 <= c < |METHOD_NAMES|
    ensures m in METHOD_NAMES ==> METHOD_NAMES[c] == m
    ensures m !in METHOD_NAMES ==> c == GET
  {
    if m in METHOD_CODES then METHOD_CODES[m] else 0
  }

  /** The table and the list of names agree, so the table is injective:
      distinct known names have distinct codes. */
  lemma MethodCodesInjective(a: string, b: string)
    requires a in METHOD_CODES && b in METHOD_CODES && a != b
    ensures MethodCode(a) != MethodCode(b)
  {
    assert METHOD_NAMES[MethodCode(a)] == a;
  }

  /** Every code from GET to TRACE is the code of its own name. */
  lemma MethodCodesCount()
    ensures |METHOD_NAMES| == 9
    ensures forall m :: m in METHOD_CODES <==> m in METHOD_NAMES
    ensures forall i :: 0 <= i < 9 ==> MethodCode(METHOD_NAMES[i]) == i
  {
  }

  const REQUIRE_METHODS := "declere methods first '.Methods[GET, POST, ...]'"
  const REQUIRE_DESCRIPTION := "declere description for view '.Description(\"<view description>\")'"

  /** A view's action, by the handle the caller gave it: nothing here calls it. */
  datatype Action = Action(handle: nat)

  class View {
    const path: string
    var methods: set<nat>
    var parameters: map<string, Parameter<RootValidators.Validator>>
    var description: string
    var action: Option<Action>

    /** `NewView`. */
    constructor (path: string)
      ensures this.path == path
      ensures methods == {} && parameters == map[] && description == "" && action == None
    {
      this.path := path;
      methods := {};
      parameters := map[];
      description := "";
      action := None;
    }

    /** `requireMethods` and `requireDescription` together, as `Parameter`
        and `Action` call them: the first missing piece names the abort. */
    function Guard(needDescription: bool): (g: Option<string>)
      reads this
      ensures g == None <==> methods != {} && (needDescription ==> description != "")
      ensures methods == {} ==> g == Some(REQUIRE_METHODS)
    {
      if methods == {} then Some(REQUIRE_METHODS)
      else if needDescription && description == "" then Some(REQUIRE_DESCRIPTION)
      else None
    }

    /** `validMethod`. */
    predicate ValidMethod(req: HttpRequest)
      reads this
    {
      MethodCode(req.httpMethod) in methods
    }

    /** `Methods`: the loop ranges over the argument list with one variable,
        so it inserts the positions 0 to n-1, not the codes given. */
    method Methods(ms: seq<int>)
      modifies this
      ensures methods == old(methods) + Positions(|ms|)
      ensures parameters == old(parameters) && description == old(description) && action == old(action)
    {
      var i := 0;
      while i < |ms|
        invariant 0 <= i <= |ms|
        invariant methods == old(methods) + Positions(i)
        invariant parameters == old(parameters) && description == old(description) && action == old(action)
      {
        methods := methods + {i};
        i := i + 1;
      }
    }

    /** `Methods` as its callers intend it: the codes given are inserted. */
    method MethodsByCode(ms: seq<nat>)
      modifies this
      ensures methods == old(methods) + set i | 0 <= i < |ms| :: ms[i]
      ensures parameters == old(parameters) && description == old(description) && action == old(action)
    {
      var i := 0;
      while i < |ms|
        invariant 0 <= i <= |ms|
        invariant methods == old(methods) + set k | 0 <= k < i :: ms[k]
        invariant parameters == old(parameters) && description == old(description) && action == old(action)
      {
        methods := methods + {ms[i]};
        i := i + 1;
      }
    }

    /** `Description`: aborts before any method is declared; otherwise replaces
        the description and nothing else. */
    method Description(d: string) returns (g: Guarded<()>)
      modifies this
      ensures g.Aborts? <==> old(methods) == {}
      ensures g.Aborts? ==> g.reason == REQUIRE_METHODS && description == old(description)
      ensures g.Returns? ==> description == d
      ensures methods == old(methods) && parameters == old(parameters) && action == old(action)
    {
      if methods == {} {
        return Aborts(REQUIRE_METHODS);
      }
      description := d;
      return Returns(());
    }

    /** `Parameter`: aborts unless methods and a description are declared;
        otherwise inserts or replaces the entry for that one name. */
    method Parameter(name: string, location: string, validators: seq<RootValidators.Validator>) returns (g: Guarded<()>)
      modifies this
      ensures g.Aborts? <==> old(Guard(true)).Some?
      ensures g.Aborts? ==> g.reason == old(Guard(true)).value && parameters == old(parameters)
      ensures g.Returns? ==> parameters == old(parameters)[name := NewParameter(name, location, validators)]
      ensures methods == old(methods) && description == old(description) && action == old(action)
    {
      var guard := Guard(true);
      if guard.Some? {
        return Aborts(guard.value);
      }
      parameters := parameters[name := NewParameter(name, location, validators)];
      return Returns(());
    }

    /** `Action`: the same two guards, then the action is stored. */
    method SetAction(f: Action) returns (g: Guarded<()>)
      modifies this
      ensures g.Aborts? <==> old(Guard(true)).Some?
      ensures g.Aborts? ==> g.reason == old(Guard(true)).value && action == old(action)
      ensures g.Returns? ==> action == Some(f)
      ensures methods == old(methods) && description == old(description) && parameters == old(parameters)
    {
      var guard := Guard(true);
      if guard.Some? {
        return Aborts(guard.value);
      }
      action := Some(f);
      return Returns(());
    }
  }

  /** The argument positions 0 to n-1. */
  function Positions(n: nat): (s: set<nat>)
    ensures forall i :: i in s <==> 0 <= i < n
  {
    if n == 0 then {} else Positions(n - 1) + {n - 1}
  }

  /** As written, `Methods(PUT, CONNECT)` declares GET and POST: neither code
      passed is in the set it adds. */
  lemma {:induction false} MethodsDeclaresPositions()
    ensures Positions(|[PUT, CONNECT]|) == {GET, POST}
    ensures PUT !in Positions(|[PUT, CONNECT]|) && CONNECT !in Positions(|[PUT, CONNECT]|)
  {
    var s := Positions(2);
    assert s == {0, 1} by {
      forall i
        ensures i in s <==> i in {0, 1}
      {
      }
    }
  }

  /** The corrected insertion declares exactly the codes passed. */
  lemma {:induction false} MethodsByCodeDeclaresCodes(ms: seq<nat>, c: nat)
    ensures c in (set i | 0 <= i < |ms| :: ms[i]) <==> c in ms
  {
    if c in ms {
      var i :| 0 <= i < |ms| && ms[i] == c;
      assert c == ms[i];
    }
  }

  /** A request whose method name is not in the table is accepted exactly
      when GET is declared. */
  lemma UnknownMethodIsGet(v: View, req: HttpRequest)
    requires req.httpMethod !in METHOD_NAMES
    ensures v.ValidMethod(req) <==> GET in v.methods
  {
  }

  /** A known method name is accepted iff its own code is declared. */
  lemma KnownMethodByCode(v: View, req: HttpRequest, i: int)
    requires 0 <= i < |METHOD_NAMES| && req.httpMethod == METHOD_NAMES[i]
    ensures v.ValidMethod(req) <==> i in v.methods
  {
    MethodCodesCount();
  }
}
