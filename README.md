# GoAPI core, modelled in Dafny

GoAPI is a small Go web framework. An `App` holds API metadata and a table of
`View`s, one per URL path. Each view declares its HTTP methods, a description,
its parameters with their validator chains, and an action. When a request
arrives, the framework:

- builds a `Request` whose parameter map merges the query string, the form
  fields and a JSON body;
- runs the validators;
- calls the action through a chain of middlewares: IP filter, rate limiter,
  cache, CORS and method filter.

The framework also generates an OpenAPI 3 document from the registered views.
In that document, each validator writes its part of the parameter's schema.

Two generations of the API live side by side, and both are modelled:

- the root package: `Request`, validator values, `HtmlResponse`/`JsonResponse`,
  and middlewares that return those responses;
- the sub-packages `validators`, `middlewares` and `responses`, built on the
  `responses.Response` interface.

Modules follow the source files:

| module | models |
|---|---|
| `Outcomes` | `Option`, `Result`, and `Guarded` (a value or a Go panic) |
| `GoStrings` | Go byte strings (UTF-8), `strings.Index`, `strconv.Atoi`/`Itoa`/`ParseBool` |
| `Values` | the dynamic values held in a parameter map |
| `Http` | the `net/http` request fields that are read; status codes and texts |
| `Requests` | `request.go`: building the parameter map, and the typed getters |
| `PanickingGetters` | the `request` package's getters, which panic instead of returning an error |
| `Parameters` | `parameter.go` |
| `RootValidators` | `validator.go` |
| `Validators` | `validators/*.go`: `Validate` and the OpenAPI schema contributions |
| `Security` | `security.go` |
| `Views` | `view.go` (a class) |
| `Apps` | `app.go` (a class) |
| `OpenApi` | `openapi3.go`: the document builder and the schema route |
| `MethodsMiddleware` | `middlewares.go` |
| `MiddlewareCore` | what `middleware.go` and `middlewares/` share: client IP, `isAllowedIP`, the rate-limiter state (a class) and the cache store (a class) |
| `Middlewares` | `middlewares/ipfilter.go`, `ratelimit.go`, `cors.go`, `cache.go` |
| `RootMiddleware` | the same three middlewares in `middleware.go` |
| `Responses` | `responses/*.go` |
| `RootResponses` | `response.go` |

How Go constructs are modelled:

- A Go panic becomes the `Aborts` branch of `Guarded` (or `Abort` in a
  validator's `Verdict`). A Go `error` becomes `Err`, or a `ValidationError`.
- State that the source updates in place is held in Dafny classes with
  `modifies` frames: `App`, `View`, the rate limiter, the cache store, an
  OpenAPI `Schema`, and a redirect response's header map.
- The `next` handler is a function parameter. Each middleware method returns
  `forwarded`, which says whether it called `next`.
- The clock is an explicit `now`: nanoseconds since the Unix epoch, so the
  `time.Unix(0, 0)` that an unseen IP starts from is `EPOCH`, 0.
- Calls into library code are parameters: `url.Parse`, `path.Clean`,
  `strconv.ParseFloat` and `json.Marshal`. So is the outcome of the
  `fmt.Sscanf` in the UUID validator.

Where the code and its documentation disagree, the model follows the code:

- A JSON body decodes numbers to `float64`, so `GetInt` rejects a number from
  the body (`Requests.JsonNumberIsNotInt`).
- A request without a body panics in `NewRequest` (see Findings).
- `View.Parameter` is called with a location (`query`, `path`, ...). The call
  at `view.go:80` passes only two arguments to the three-argument
  `NewParameter`, so that line does not compile as shown. The model supplies
  the location.
- `APISecurity.IsAuthenticated` compares `r.GetString(headerName)` with the
  key (security.go:31), but the root `GetString` returns a value and an
  error (request.go:64), so that line does not compile as shown. The
  deferred `recover` at security.go:25-29 only makes sense if the getter
  panics, so the model reads the call through the `request` package's
  panicking getter (`PanickingGetters.GetString`).
- `methodCodeToString`, which `openapi3.go` calls, is not in the source
  files. `OpenApi.MethodName` takes it to be the inverse of the
  `methodStringToCode` table.

## Model

| member | source | states |
|---|---|---|
| `GoStrings.AtoiOverflowBeforeJunk` | request.go:84-90 | the decimal text of a number beyond 2^64 - 1 followed by "x" is out of range for `strconv.Atoi`, not a syntax error |
| `GoStrings.AtoiItoa` | request.go:84-90 | `strconv.Atoi` parses the decimal text of every int64 back to that value, which is the round trip `GetInt` relies on for a string parameter |
| `GoStrings.ByteLenAtLeastChars` | validator.go:137 | Go's `len` of a string (its UTF-8 byte count) is never below its number of characters |
| `GoStrings.EncodeAscii` | responses/redirect.go:13-23 | an ASCII string is its own byte sequence, one byte per character |
| `GoStrings.IndexOf` | responses/redirect.go:65-68 | `strings.Index` for one character: -1 exactly when the character is absent; otherwise its first position |
| `GoStrings.BeforeFirst` | middlewares/ipfilter.go:17 | `strings.Split(s, ":")[0]` has no ':'. It is the whole string when there is no ':', and otherwise the prefix before the first ':' |
| `Parameters.NewParameter` | parameter.go:16-18 | the record keeps the name, the location and the validator list unchanged, in order |
| `Parameters.LocationConstants` | parameter.go:3-8 | the four locations are distinct, and the cookie location is the upper-case "COOKIE" |
| `Requests.CollapseShape` | request.go:23-45 | a field with exactly one value becomes that string; any other count becomes a string list of all the values, in order |
| `Requests.MergePrecedence` | request.go:23-58 | in the merged map a JSON body field wins over a POST form field, which wins over a query field, which wins over a form field; a key in none of them is absent |
| `Requests.OverlayForm` | request.go:23-45 | one form loop overwrites the map with every collapsed field of that form |
| `Requests.OverlayObject` | request.go:54-56 | the body loop overwrites the map with every body field |
| `Requests.NewRequest` | request.go:16-62 | a form-parsing error or a malformed body is returned as an error; an empty body panics when the nil body is asserted to be a map; a body other than a JSON object panics; otherwise the parameters are the merge of the four sources in precedence order |
| `Requests.NewRequestCorrected` | request.go:47-58 | as `NewRequest`, except that an empty body yields the merge of the form, query and POST form fields |
| `Requests.BodylessQueryReadable` | request.go:47-58 | with the corrected constructor, a single-valued query parameter of a body-less request reads back through `GetString` |
| `Requests.GetStringCases` | request.go:64-76 | an absent name gives the "not found" error and a non-string the "not a string" error; any success is the exact stored string |
| `Requests.GetIntCoercion` | request.go:78-96 | a stored int, or the decimal text of an int64, reads back as that int |
| `Requests.GetIntRejects` | request.go:78-96 | an absent name gives "not found", a type other than int and string gives "is not an integer", and a string `strconv.Atoi` rejects gives "is not an integer: " followed by Atoi's error |
| `Requests.GetIntSyntaxError` | request.go:84-90 | an empty string, a sign alone, or a sign before text with a non-digit fails with Atoi's "invalid syntax" error, when the digits before the first non-digit stay within 2^64 - 1 |
| `Requests.GetIntDigitOverflow` | request.go:84-90 | digits whose value passes 2^64 - 1 fail with Atoi's "value out of range" error whatever follows them, since the overflow is reported before a later non-digit is read |
| `Requests.GetIntRangeError` | request.go:84-90 | decimal text above the int64 maximum or below its minimum fails with Atoi's "value out of range" error |
| `Requests.GetFloatCoercion` | request.go:98-116 | a stored float is returned, a string goes to `ParseFloat`, an absent name or any other type is an error |
| `Requests.GetBoolCoercion` | request.go:118-136 | a stored bool is returned and a string goes to `ParseBool`; an absent name or any other type (an int, say) is an error |
| `Requests.GetArray` | request.go:138-144 | succeeds exactly for a generic list, returning its elements in order; otherwise it fails with "not found or not an array" |
| `Requests.GetMap` | request.go:146-152 | succeeds exactly for an object, returning its entries; otherwise it fails with "not found or not a map" |
| `Requests.GetIntArray` | request.go:154-175 | fails for an absent name or a non-list, and fails when some element is not a native int; otherwise it returns those ints in order |
| `Requests.GetStringBoolMap` | request.go:177-198 | fails for an absent name or a non-object, and fails when some value is not a native bool; otherwise it returns the same keys with those bools |
| `Requests.RepeatedFieldIsNotArray` | request.go:138-144 | a form field sent twice becomes a string list, which `GetArray` rejects |
| `Requests.BodyStringWins` | request.go:54-56 | a string field of the JSON body is what `GetString` returns, whatever the forms and query say |
| `Requests.JsonNumberIsNotInt` | request.go:78-96 | a number decoded from the JSON body is a float, so `GetInt` rejects it |
| `PanickingGetters.Must` | security.go:24-32 | the panicking getter returns exactly the successful value; an error becomes a panic carrying its message |
| `PanickingGetters.MissingPanics` | request/request_test.go:106-112 | every panicking getter panics on an absent parameter |
| `RootValidators.RequiredIffPresent` | validator.go:11-18 | `VRequired` passes iff the name is a key, and otherwise fails with "parameter NAME is required" |
| `RootValidators.AbsentGivesRequiredError` | validator.go:22-122 | every type validator returns the `VRequired` error unchanged for an absent parameter |
| `RootValidators.TypeCheckIsNative` | validator.go:22-122 | a present parameter passes a type validator iff its value has that native type, so a numeric string fails `VIsInt` |
| `RootValidators.StringLengthBounds` | validator.go:129-143 | non-strings get `VIsString`'s error; a string passes iff Min <= its byte length <= Max |
| `RootValidators.RangeBounds` | validator.go:150-174 | only ints and floats are numeric; a numeric value passes iff Min <= value <= Max |
| `Validators.RequiredIffPresent` | validators/required.go:13-20 | passes iff the name is a key, whatever its value, and otherwise fails with "parameter NAME is required" |
| `Validators.TypeCheckAdmitsAbsence` | validators/is_string.go:13-27 | every type check passes an absent parameter |
| `Validators.TypeCheckAccepts` | validators/is_int.go:16-30 | a present parameter passes a type check iff the matching getter accepts it (a native value, or a string it parses); a type check never panics |
| `Validators.DecimalTextIsInt` | validators/is_int.go:16-30 | the decimal text of an int64, such as "84", passes `VIsInt` |
| `Validators.StringLengthOutcomes` | validators/string_length.go:21-35 | an absent parameter panics in `GetString`; a non-string gets the type error; a string passes iff its byte length is within the bounds, and otherwise gets the "length must be between" message |
| `Validators.RangeOutcomes` | validators/range.go:19-33 | an absent parameter panics in `GetFloat`; a `VIsFloat` error is returned unchanged; a float, or a string the float parser accepts, passes iff its value is within the bounds, and otherwise gets the range message |
| `Validators.AcceptedEmailHasOneAt` | validators/email.go:13 | an accepted address has exactly one '@', a non-empty local part, and a '.' after the '@' |
| `Validators.EmailExamples` | validators/email.go:13 | "user@example.com" matches; a one-letter top-level domain or a missing '@' does not |
| `Validators.EmailOutcomes` | validators/email.go:18-24 | an absent or non-string parameter panics; a string passes iff it matches the address pattern, and otherwise fails with the email message |
| `Validators.RemoveDashes` | validators/uuid.go:28 | removing the dashes leaves no dash and never lengthens the string |
| `Validators.RemoveDashesAppend` | validators/uuid.go:28 | removing the dashes distributes over concatenation |
| `Validators.UuidHexDigits` | validators/uuid.go:14-28 | a string matching the UUID pattern leaves exactly 32 lower-case hex digits once its dashes are removed |
| `Validators.UuidRejectsUpperCase` | validators/uuid.go:14 | any upper-case letter fails the pattern |
| `Validators.UuidExample` | validators/uuid.go:14 | a version-1 UUID matches; version digit 6 does not |
| `Validators.UuidOutcomes` | validators/uuid.go:19-34 | an absent or non-string parameter panics; a string passes iff it matches the pattern and the hex scan succeeds; both failures give "must be a valid UUID" |
| `Validators.UuidRejectsWhenScanRejects` | validators/uuid.go:28-31 | when the scan always reports an error, no parameter passes |
| `Validators.UuidExampleOutcomes` | validators/uuid.go:28-31 | a valid UUID fails the validator as written and passes the corrected one |
| `Validators.ValidateUuidCorrected` | validators/uuid.go:19-34 | the UUID check without the scan: a string passes iff it matches the pattern, and otherwise fails with the UUID message |
| `Validators.PasswordReportsFirstProblem` | validators/password.go:24-48 | a string passes iff it has no problem; otherwise the message is that of the first failing check, in the order length, symbol, digit, upper case |
| `Validators.PasswordExample` | validators/password.go:24-48 | "Secret#1" meets the length 8..64 and all three classes, but not a minimum length of 9 |
| `Validators.ToUint64` | validators/string_length.go:15-20 | the `uint64(int)` conversion keeps non-negative values and wraps negative ones modulo 2^64 |
| `Validators.Schema.constructor` | openapi3.go:29 | a new schema is empty |
| `Validators.UpdateOpenAPISchema` | validators/is_int.go:12-15 | the validator's contribution is written into the shared schema in place |
| `Validators.LastTypeWins` | openapi3.go:35-43 | in a chain, the last validator that sets a type decides the schema's type |
| `Validators.NoTypeWithoutTypeCheck` | openapi3.go:35-43 | a chain without a type-setting validator leaves the type empty |
| `Validators.FormatOutlivesType` | validators/is_string.go:12 | `VIsString` after `VIsInt` replaces the type but leaves the "int64" format |
| `Validators.RequiredIntRangeSchemaAt` | validators/range.go:15-18 | `VRange` writes only Min and Max, so the "integer" type from an earlier `VIsInt` stays, for all bounds |
| `Validators.NegativeMinLengthWraps` | validators/string_length.go:17 | a minimum length of -1 becomes 2^64-1 in the schema |
| `Security.IsAuthenticated` | security.go:24-32 | true iff the header parameter is the string equal to the key; an absent or non-string parameter panics with "API Header 'NAME' not found" |
| `Security.WrongKeyRefused` | security.go:31 | a present string other than the key is refused without a panic |
| `Views.MethodCode` | view.go:17-27 | a known name maps to its own position in the method list; an unknown name reads as 0, GET's code |
| `Views.MethodCodesInjective` | view.go:17-27 | distinct method names have distinct codes |
| `Views.MethodCodesCount` | view.go:5-27 | the table has the nine names, and each code from 0 to 8 is that of its own name |
| `Views.View.constructor` | view.go:37-45 | a new view has its path, no methods, no parameters, no description and no action |
| `Views.View.Guard` | view.go:47-57 | no abort iff methods are declared and, when needed, a description; with no methods the methods message comes first |
| `Views.View.Methods` | view.go:64-69 | as written: adds the positions 0..n-1 of the arguments to the method set, and changes nothing else |
| `Views.View.MethodsByCode` | view.go:64-69 | as intended: adds exactly the codes passed, and changes nothing else |
| `Views.View.Description` | view.go:71-75 | aborts iff no method is declared; otherwise it replaces only the description |
| `Views.View.Parameter` | view.go:77-82 | aborts unless methods and a description are declared; otherwise it sets only that one name's entry |
| `Views.View.SetAction` | view.go:84-89 | the same guard, then it stores the action and nothing else |
| `Views.MethodsDeclaresPositions` | view.go:64-69 | `Methods(PUT, CONNECT)` declares GET and POST, and neither PUT nor CONNECT |
| `Views.MethodsByCodeDeclaresCodes` | view.go:64-69 | the corrected insertion declares a code iff it was passed |
| `Views.UnknownMethodIsGet` | view.go:59-62 | an unknown method name is accepted iff GET is declared |
| `Views.KnownMethodByCode` | view.go:59-62 | a known method name is accepted iff its own code is declared |
| `Apps.Authenticate` | app.go:96-99 | a security requirement maps the provider's name, and only that, to its scopes |
| `Apps.ApiKeyRequirement` | security.go:16-22 | the API-key provider is named "api-key" and has no scopes |
| `Apps.App.GoAPI` | app.go:32-47 | a new app has the title and version, empty metadata, no views, and the default "/docs" and "/openapi.json" routes |
| `Apps.App.Description` | app.go:69-71 | sets the description and nothing else |
| `Apps.App.TermOfServiceURL` | app.go:74-76 | sets the terms URL and nothing else |
| `Apps.App.SetLicense` | app.go:80-82 | sets the license and nothing else |
| `Apps.App.SetContact` | app.go:85-87 | sets the contact and nothing else |
| `Apps.App.AddTag` | app.go:91-93 | appends one tag |
| `Apps.App.Security` | app.go:96-99 | appends one requirement built from the provider's name and scopes |
| `Apps.App.OptionalSecurity` | app.go:107-110 | appends the empty requirement |
| `Apps.App.Middlewares` | app.go:102-104 | appends the middlewares in order |
| `Apps.App.OpenapiDocsURL` | app.go:114-116 | sets the docs route and nothing else |
| `Apps.App.OpenapiSchemaURL` | app.go:120-122 | sets the schema route and nothing else |
| `Apps.App.Include` | app.go:125-127 | maps the path to the handler, replacing any earlier one |
| `Apps.App.Path` | app.go:130-140 | panics on a registered path; otherwise it registers a fresh view under that path, and keeps every view's path equal to its key |
| `Apps.DistinctPathsDistinctViews` | app.go:130-140 | two registered paths never share a view |
| `Apps.PathTwice` | app.go:130-140 | registering a path a second time panics |
| `OpenApi.MethodName` | openapi3.go:24 | the name at a code's position, or "" for an unknown code |
| `OpenApi.MethodNameInvertsCode` | openapi3.go:24 | the method name of a code maps back to that code |
| `OpenApi.SetOperation` | openapi3.go:71 | stores an operation for one of the nine method names, and panics for any other name |
| `OpenApi.ProjectParameter` | openapi3.go:28-54 | one parameter object: its name, its location, not deprecated, required iff some validator is `VRequired`, and the chain's schema |
| `OpenApi.ProjectParameters` | openapi3.go:28-54 | one parameter object per parameter of the view, each agreeing with its entry |
| `OpenApi.ProjectOperation` | openapi3.go:56-69 | an operation with the view's description, tags and deprecated flag, its parameters, and the "422" validation-error response |
| `OpenApi.ProjectPathItem` | openapi3.go:16-75 | an operation under every declared method's name; it panics iff some code has no name |
| `OpenApi.ItemAt` | openapi3.go:17-20 | the path item already stored for a path, or an empty one |
| `OpenApi.Openapi3Schema` | openapi3.go:12-95 | the document has version "3.0.0" and the app's info, security and tags, and describes every view under its path; it panics iff some method code has no name |
| `OpenApi.OperationShape` | openapi3.go:56-60 | every operation declares the "422" response with its fixed description, and no parameter is deprecated |
| `OpenApi.ParametersCount` | openapi3.go:28-54 | an operation has as many parameter objects as the view has parameters |
| `OpenApi.DistinctNamesCount` | openapi3.go:28-54 | parameter objects with distinct names are as many as their names |
| `OpenApi.AddOperation` | openapi3.go:25-69 | an operation projected from a view whose parameters a and b each carry Required, IsInt and Range(0, 100) has a 422 response and two required query parameters, each an int64 integer with bounds 0 and 100 |
| `OpenApi.AddScenario` | openapi3.go:12-95 | a GET view "/add" with query parameters a and b gives one GET operation with two required query parameters, each of type integer with bounds 0 and 100 |
| `OpenApi.RegisterDocs` | openapi3.go:97-113 | the schema is built once, at registration, and the route keeps it (or its error) |
| `OpenApi.SchemaHandler` | openapi3.go:100-113 | a non-GET request gets 405; a failed build gets 500; otherwise the stored bytes with content type application/json |
| `MethodsMiddleware.MethodsFilter` | middlewares.go:21-31 | forwards iff the request method is in the list; otherwise it answers "Method Not Allowed" with 405 |
| `MethodsMiddleware.CaseSensitive` | middlewares.go:23-25 | a lower-case "get" does not match "GET" |
| `MiddlewareCore.ClientIP` | middlewares/ipfilter.go:17 | the client IP has no ':'. It is the remote address up to its first ':', or the whole address when there is none |
| `MiddlewareCore.ClientIPOfHostPort` | middlewares/ipfilter.go:17 | "host:port" gives the host |
| `MiddlewareCore.ClientIPOfBracketed` | middlewares/ipfilter.go:17 | a bracketed IPv6 address gives "[", so it never matches an allowed address |
| `MiddlewareCore.IsAllowedIP` | middlewares/ipfilter.go:28-35 | true iff the IP is in the allowed list |
| `MiddlewareCore.Tick` | middlewares/ratelimit.go:42-56 | one request either starts a new window (count 1, stamped now) or adds one to the count in the current window |
| `MiddlewareCore.RateLimiter.constructor` | middlewares/ratelimit.go:23-31 | a new limiter has its limit and interval and no counters |
| `MiddlewareCore.RateLimiter.Admit` | middlewares/ratelimit.go:42-60 | the caller's counter moves by one `Tick`; the request is rejected iff the new count exceeds the limit; other IPs are untouched |
| `MiddlewareCore.FixedWindow` | middlewares/ratelimit.go:42-56 | requests inside one window only add to the count and keep the window's start |
| `MiddlewareCore.WindowAdmitsAtMostMax` | middlewares/ratelimit.go:42-60 | within one window, at most the limit's number of requests is admitted |
| `MiddlewareCore.FirstRequestResets` | middlewares/ratelimit.go:42-52 | an IP's first request, which the limiter dates from the Unix epoch, opens a new window when it comes more than one interval after the epoch |
| `MiddlewareCore.Cache.constructor` | middlewares/cache.go:17-22 | a new cache has its key prefix and an empty store |
| `MiddlewareCore.Cache.Key` | middlewares/cache.go:27 | the key is the prefix followed by the request URL |
| `MiddlewareCore.KeysInjective` | middlewares/cache.go:27 | distinct URLs have distinct keys |
| `Middlewares.IPFilter` | middlewares/ipfilter.go:15-26 | forwards iff the client IP is allowed; otherwise it answers "Access denied" with 403 |
| `Middlewares.RateLimiterApply` | middlewares/ratelimit.go:33-74 | forwards iff the client's updated count is within the limit; otherwise it answers "Rate limit exceeded" with 429 |
| `Middlewares.OriginIsAllowed` | middlewares/cors.go:27-35 | true iff "*" or the origin itself is in the allowed list |
| `Middlewares.CorsHeaders` | middlewares/cors.go:42-56 | the three CORS headers, with the request's origin as the allowed origin |
| `Middlewares.CorsApply` | middlewares/cors.go:37-60 | forwards iff the method is not OPTIONS. A preflight gets an empty 200 when the origin is allowed, or 403 otherwise. The CORS headers persist only on a redirect response; a value response never carries Access-Control-Allow-Origin |
| `Middlewares.KeptHtmlResponse.constructor` | responses/html.go:11-19 | an HTML response whose header map is a field, starting with text/html |
| `Middlewares.KeptHtmlResponse.Set` | middlewares/cors.go:43-46 | a header set on the kept map persists |
| `Middlewares.CorsPreflightCorrected` | middlewares/cors.go:39-52 | an allowed preflight answers 200 with text/html and the three CORS headers, including the origin; a disallowed one gets no such response |
| `Middlewares.CacheApply` | middlewares/cache.go:24-46 | a hit returns the stored response; a miss forwards, returns `next`'s response, and stores it iff its status is 200; the store only ever holds status-200 responses |
| `Middlewares.CacheServesRepeat` | middlewares/cache.go:24-46 | after a 200 miss, the same URL is served from the store |
| `RootMiddleware.IPFilter` | middleware.go:90-104 | forwards iff the client IP is allowed; otherwise it answers "Access denied" with 403 |
| `RootMiddleware.RateLimiterApply` | middleware.go:135-179 | forwards iff the client's updated count is within the limit; otherwise it answers "Rate limit exceeded" with 429 |
| `RootMiddleware.CacheApply` | middleware.go:193-216 | a hit returns the stored response; a miss forwards and stores the response iff its status is 200 |
| `Responses.RedirectResponse.constructor` | responses/redirect.go:42-44 | the redirect keeps its code and its header map |
| `Responses.NewHTMLResponse` | responses/html.go:11-13 | stores the content and the code unchanged |
| `Responses.NewErrorResponse` | responses/error.go:11-13 | stores the text and the code unchanged |
| `Responses.NewJSONResponse` | responses/json.go:16-18 | stores the content and the code unchanged |
| `Responses.StatusDefaults` | responses/html.go:25-30 | HTML and JSON report 200 for a zero code and keep any other code; an error response keeps even 0 |
| `Responses.ValueHeaders` | responses/error.go:15-20 | each value response declares its own content type, and only the error response adds nosniff |
| `Responses.BodyBytes` | responses/json.go:26-31 | the body is the bytes of the text for HTML and error responses and empty for a redirect; only a JSON response panics, exactly when marshalling fails |
| `Responses.SetHeader` | responses/html.go:15-19 | a header set on a redirect persists; one set on a value response is lost |
| `Responses.EscapeByte` | responses/redirect.go:24-33 | a byte below 0x80 is copied; any other becomes '%' and two hex digits; the output is ASCII |
| `Responses.HexEscapeNonAscii` | responses/redirect.go:12-34 | the counting loop and the building loop compute the escaped form of the input |
| `Responses.NoNonAsciiMeansAscii` | responses/redirect.go:13-23 | the non-ASCII count is zero iff every byte is below 0x80 |
| `Responses.EscapedAscii` | responses/redirect.go:13-23 | an all-ASCII input is returned unchanged |
| `Responses.EscapedLength` | responses/redirect.go:24-33 | the output is the input length plus two per non-ASCII byte |
| `Responses.EscapedIsAscii` | responses/redirect.go:24-33 | the output is all ASCII |
| `Responses.Idempotent` | responses/redirect.go:12-34 | escaping twice is escaping once |
| `Responses.EscapeExample` | responses/redirect.go:24-33 | "/é" becomes "/%c3%a9" |
| `Responses.Dir` | responses/redirect.go:61 | the directory is the prefix of the path up to and including its last '/', and is empty when the path has no '/' |
| `Responses.NewRedirectResponse` | responses/redirect.go:41-91 | a fresh response with the code, whose headers are `Location` = escaped target and, for GET or HEAD, the HTML content type |
| `Responses.NewPermanentRedirectResponse` | responses/redirect.go:105-107 | the redirect with status 308 |
| `Responses.NewTemporaryRedirectResponse` | responses/redirect.go:109-111 | the redirect with status 307 |
| `Responses.AbsoluteKept` | responses/redirect.go:46-52 | a URL with a scheme or a host, or one that does not parse, is only escaped |
| `Responses.AbsolutizedIsAbsolute` | responses/redirect.go:53-63 | a relative URL is made absolute against the request's directory, or "/" when the path is empty |
| `Responses.QueryKept` | responses/redirect.go:65-76 | the query, from the first '?', is re-appended verbatim after cleaning |
| `Responses.TrailingSlashKept` | responses/redirect.go:65-76 | a trailing '/' of the path part before the first '?' survives cleaning, and the query follows it unchanged |
| `Responses.RedirectHeaderKeys` | responses/redirect.go:83-88 | `Location` is always set and is ASCII; Content-Type is set iff the method is GET or HEAD |
| `RootResponses.ContentType` | response.go:16-18 | "text/html" for HTML and "application/json" for JSON |
| `RootResponses.ToBytes` | response.go:20-48 | HTML gives the bytes of its content; JSON gives exactly the marshalled bytes, and panics with the marshalling error iff marshalling fails |
| `RootResponses.StatusCode` | response.go:24-55 | never 0: a zero code reports 200 and any other code is kept |

## Left out

- `Run`, `RunTLS`, `RunNgrok`, `baseRouter`, `registerViews`, `registerInternalViews`, `registerExternalHandlers` and `startup` (app.go): these are `net/http` server, TLS, ngrok and logging calls. The composition of the middleware chain around a view's handler is therefore not modelled either.
- The docs HTML route (openapi3.go:115-150): it writes a fixed HTML page.
- JSON encoding and decoding: a decoded body (or a decoding error) is an input, and `json.Marshal` is a function parameter.
- `req.ParseForm`: its form, query and POST-form multimaps (or its error) are inputs.
- `strconv.ParseFloat`, `url.Parse` and `path.Clean`: each is a function parameter. The query and trailing-slash properties hold whatever they compute.
- The `fmt.Sscanf` in validators/uuid.go: its success is a parameter.
- The timeout, logging and timing middlewares: they race goroutines, read the clock and log.
- The mutexes of the rate limiters: each request is one atomic method call with an explicit `now`.
- The expiry of go-cache: the store is a map without expiry.
- Template responses (responses/template.go): they read files through the template engine.
- The date, time, URL, IP-address, phone-number and regex validators: each rests on a foreign parser or a caller-supplied regex.
- The interface-only files validators/validator.go, middlewares/middleware.go and responses/response.go: they declare signatures only.
- A header map holds one value per name, as `Header.Set` leaves it; multi-valued headers are not modelled.
- `PanickingGetters`: the `request` package's own source is not modelled. Its getters are taken to coerce values as the root getters do, and to panic with the root getter's error text; both are assumptions. That package's `GetIntArray`, whose tests show it accepting string elements, is not modelled.
- `Middlewares.CorsApply`: on the forwarding path (middlewares/cors.go:54-58) a value response from `next` loses the CORS headers in the same way; the model shows this, but only the preflight has a corrected counterpart.
- `Values.Float`: Go's `float64` is modelled as an exact real. NaN and the infinities are not modelled, and neither is rounding.
- `Validators.RangeOutcomes`: with floats as exact reals, the model does not show that a parsed "NaN" passes every `VRange` (both comparisons at validators/range.go:30 are false for it).
- `RootValidators.RangeBounds`: an int is compared as an exact real; the rounding of `float64(val)` for ints beyond 2^53 (validator.go:162) is not modelled.
- `Validators.RangeOutcomes`: the `%f` text of the range message is kept symbolic (`NotBetween`), not formatted.
- `GoStrings.Quote`: the escaping `strconv.Quote` applies to quotes, backslashes and control characters is not modelled.
- `MiddlewareCore.Tick`: the counters are unbounded integers; a counter overflow is not modelled, nor are the monotonic-clock readings of `time.Now`.
- The validators never modify the parameter map. This holds by construction here, because `Validate` is a function of the request.

## Findings

| source | as written | input that shows it | evidently intended | confidence | as-written member | corrected member |
|---|---|---|---|---|---|---|
| view.go:64-69 | the loop inserts the argument's position into the method set, not its value | `Methods(PUT, CONNECT)` declares GET and POST | declare the method codes passed | not executed | `Views.MethodsDeclaresPositions` | `Views.View.MethodsByCode` |
| request.go:54-56 | decoding an empty body returns io.EOF, which is skipped, and the nil body is then asserted to be a map, which panics | any request without a body, such as a plain GET | treat an empty body as no body fields | not executed | `Requests.NewRequest` | `Requests.NewRequestCorrected` |
| validators/uuid.go:28-31 | `Sscanf` with "%x" into a pointer to an empty struct always reports an error, so the validator fails every UUID | "123e4567-e89b-12d3-a456-426614174000" | accept every string that matches the pattern | not executed | `Validators.UuidExampleOutcomes` | `Validators.ValidateUuidCorrected` |
| middlewares/cors.go:42-47 | on a preflight, the CORS headers are set on the map that `Headers()` returns, which a value response builds anew on each call, so they are lost | an allowed OPTIONS preflight: its response has no Access-Control-Allow-Origin | send the CORS headers with the preflight response | not executed | `Middlewares.CorsApply` | `Middlewares.CorsPreflightCorrected` |
