/** app.go: the application registry. It holds the document metadata, the
    ordered tag, security and middleware lists, the external handlers and
    the views keyed by path. */
module Apps {
  import opened Outcomes
  import opened Views
  import Sec = Security

  datatype License = License(name: string, url: string)
  datatype Contact = Contact(name: string, url: string, email: string)
  datatype Tag = Tag(name: string, description: string)

  /** An OpenAPI security requirement: provider name to scopes. */
  type SecurityRequirement = map<string, seq<string>>

  /** An external `http.Handler` or a middleware, by the handle the caller
      gave it: the registry only stores them. */
  datatype Handle = Handle(id: nat)

  /** Every field of the registry except the view table. */
  datatype Settings = Settings(
    title: string,
    version: string,
    description: string,
    termOfServiceURL: string,
    license: License,
    contact: Contact,
    tags: seq<Tag>,
    security: seq<SecurityRequirement>,
    externalHandlers: map<string, Handle>,
    middlewares: seq<Handle>,
    openapiDocsURL: string,
    openapiSchemaURL: string)

  /** `openapi3.NewSecurityRequirement().Authenticate(name, scopes...)`. */
  function Authenticate(name: string, scopes: seq<string>): (req: SecurityRequirement)
    ensures req.Keys == {name} && req[name] == scopes
  {
    map[name := scopes]
  }

  /** The API-key provider is documented as the requirement "api-key" with no scopes. */
  lemma ApiKeyRequirement(sec: Sec.APISecurity)
    ensures Authenticate(Sec.GetName(sec), Sec.GetScopes(sec)) == map["api-key" := []]
  {
  }

  class App {
    var title: string
    var version: string
    var description: string
    var termOfServiceURL: string
    var license: License
    var contact: Contact
    var tags: seq<Tag>
    var security: seq<SecurityRequirement>
    var externalHandlers: map<string, Handle>
    var middlewares: seq<Handle>
    var views: map<string, View>
    var openapiDocsURL: string
    var openapiSchemaURL: string

    function Current(): Settings
      reads this
    {
      Settings(title, version, description, termOfServiceURL, license, contact, tags, security,
               externalHandlers, middlewares, openapiDocsURL, openapiSchemaURL)
    }

    /** Each view is stored under its own path. */
    predicate Valid()
      reads this
    {
      forall p :: p in views ==> views[p].path == p
    }

    /** `GoAPI`. */
    constructor GoAPI(title: string, version: string)
      ensures Current() == Settings(title, version, "", "", License("", ""), Contact("", "", ""), [], [],
                                    map[], [], "/docs", "/openapi.json")
      ensures views == map[] && Valid()
    {
      this.title := title;
      this.version := version;
      description := "";
      termOfServiceURL := "";
      license := License("", "");
      contact := Contact("", "", "");
      tags := [];
      security := [];
      externalHandlers := map[];
      middlewares := [];
      views := map[];
      openapiDocsURL := "/docs";
      openapiSchemaURL := "/openapi.json";
    }

    method Description(d: string)
      modifies this
      ensures Current() == old(Current()).(description := d) && views == old(views)
    {
      description := d;
    }

    method TermOfServiceURL(url: string)
      modifies this
      ensures Current() == old(Current()).(termOfServiceURL := url) && views == old(views)
    {
      termOfServiceURL := url;
    }

    method SetLicense(name: string, url: string)
      modifies this
      ensures Current() == old(Current()).(license := License(name, url)) && views == old(views)
    {
      license := License(name, url);
    }

    method SetContact(name: string, url: string, email: string)
      modifies this
      ensures Current() == old(Current()).(contact := Contact(name, url, email)) && views == old(views)
    {
      contact := Contact(name, url, email);
    }

    /** `Tag`: one more tag at the end. */
    method AddTag(name: string, description: string)
      modifies this
      ensures Current() == old(Current()).(tags := old(tags) + [Tag(name, description)]) && views == old(views)
    {
      tags := tags + [Tag(name, description)];
    }

    /** `Security`, given the provider's `GetName()` and `GetScopes()`. */
    method Security(name: string, scopes: seq<string>)
      modifies this
      ensures Current() == old(Current()).(security := old(security) + [Authenticate(name, scopes)]) && views == old(views)
    {
      security := security + [Authenticate(name, scopes)];
    }

    /** `OptionalSecurity`: an empty requirement, which lets a request
        through without credentials. */
    method OptionalSecurity()
      modifies this
      ensures Current() == old(Current()).(security := old(security) + [map[]]) && views == old(views)
    {
      security := security + [map[]];
    }

    /** `Middlewares`: the arguments, in order, after the existing list. */
    method Middlewares(ms: seq<Handle>)
      modifies this
      ensures Current() == old(Current()).(middlewares := old(middlewares) + ms) && views == old(views)
    {
      middlewares := middlewares + ms;
    }

    method OpenapiDocsURL(url: string)
      modifies this
      ensures Current() == old(Current()).(openapiDocsURL := url) && views == old(views)
    {
      openapiDocsURL := url;
    }

    method OpenapiSchemaURL(url: string)
      modifies this
      ensures Current() == old(Current()).(openapiSchemaURL := url) && views == old(views)
    {
      openapiSchemaURL := url;
    }

    /** `Include`: sets or replaces the handler for one path. */
    method Include(path: string, handler: Handle)
      modifies this
      ensures Current() == old(Current()).(externalHandlers := old(externalHandlers)[path := handler]) && views == old(views)
    {
      externalHandlers := externalHandlers[path := handler];
    }

    /** `Path`: aborts on a registered path; otherwise adds exactly one fresh
        view under it and returns that view. */
    method Path(path: string) returns (g: Guarded<View>)
      modifies this
      ensures path in old(views) ==> g == Aborts("path " + path + " already registered") && views == old(views)
      ensures path !in old(views) ==> g.Returns? && fresh(g.value) && views == old(views)[path := g.value]
      ensures g.Returns? ==>
                (g.value.path == path && g.value.methods == {} && g.value.parameters == map[] &&
                 g.value.description == "" && g.value.action == None)
      ensures Current() == old(Current())
      ensures old(Valid()) ==> Valid()
    {
      if path in views {
        return Aborts("path " + path + " already registered");
      }
      var view := new View(path);
      views := views[path := view];
      return Returns(view);
    }
  }

  /** Distinct paths of a valid registry hold distinct views. */
  lemma DistinctPathsDistinctViews(a: App, p: string, q: string)
    requires a.Valid() && p in a.views && q in a.views && p != q
    ensures a.views[p] != a.views[q]
  {
    assert a.views[p].path == p;
  }

  /** Registering a path twice aborts the second time, whatever came between. */
  method PathTwice(a: App, path: string) returns (first: Guarded<View>, second: Guarded<View>)
    modifies a
    ensures path !in old(a.views) ==> first.Returns? && second.Aborts?
    ensures path in old(a.views) ==> first.Aborts? && second.Aborts?
  {
    first := a.Path(path);
    second := a.Path(path);
  }
}
