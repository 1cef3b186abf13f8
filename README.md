# simple-site-tracker: request admission, in Dafny

This project models the request-admission core of simple-site-tracker, a
small Go server that records UTM visits and clicks for registered sites.

It models everything a tracking request passes through before an event row
is stored:

- the CORS gate over the `Referer` header (`handleCORS`);
- the middleware stack that `NewRouter` builds with `HandleMiddleware`;
- request logging (`LogRequest`);
- the zero-rate limiter shared by all routes (`RateLimit`);
- the `X-Ignore-Tracking` opt-out (`CheckForIgnoreHeader`);
- site authentication by `Origin` and `X-Site-Key` (`DomainValidation` and
  `Service.ValidateDomainKeyPair`);
- the tracking handlers themselves: `TrackUTMHandler`, `TrackClickHandler`
  and `ServeJSHandler`, with their page get-or-create step;
- the older middleware package `api/router/middleware`, whose validation
  answers 400 instead of 401.

Modules, one per file:

- `Http` (http.dfy): the part of net/http the core touches.
  - Requests carry a header map and a body as the JSON decoder sees it.
  - A `ResponseWriter` keeps the first status written (later
    `WriteHeader` calls are superfluous), its header map and its body.
  - `Error` is `http.Error`.
- `Url` (url.dfy): a model of `url.Parse` and `net.SplitHostPort` for the
  inputs the handlers see, plus `getDomainFromOrigin` and `getPageFromURL`.
  - The three identical copies of `getDomainFromOrigin` (in
    api/track/handler.go, api/middleware/middleware.go and
    api/router/middleware/middleware.go) are one function,
    `Url.GetDomainFromOrigin`.
- `Rate` (rate.dfy): `rate.NewLimiter(0, burst)` and `Allow()`. With a zero
  limit the limiter hands out its burst once and never refills.
- `Repo` and `Database` (repository.dfy): the repository as an abstract
  store.
  - The store holds table rows, the auto-increment counters, a set of calls
    on which the database fails, and a log of the calls made, like the
    tests' mock repository.
  - `Repo` holds each query as a function; `Database.Repository` is the
    shared object whose methods run them.
- `Service` (service.dfy): `ValidateDomainKeyPair`, as a function on the
  store and as a method of the `Service` object.
- `Track` (track.dfy): the handlers.
  - Each is a function of the request, the response written so far and the
    store, and also a method on the live `ResponseWriter` and `Repository`
    proved to agree with it.
  - The missing `return` after the 401 for an unknown domain (handler.go
    lines 133-135 and 210-212) is reproduced: the page lookup, page creation
    and save still run with domain id 0 (`Track.UnknownDomainGoesOn`,
    `Track.UnknownDomainNewPage`, `Track.UnknownDomainExistingPage`). The
    client sees the 401 because the first status written wins.
- `Cors` (cors.dfy): the body of the `handleCORS` closure, as a function
  and as a method with the search loop and `break` of the source.
- `Middleware` (middleware.dfy): handlers as values.
  - A Go closure built by a middleware constructor is a `Wrap(stage, next)`
    node holding what the closure captured: the allow-list, the limiter
    object, or the refusal status.
  - The constructors are `Handler -> Handler` functions, so
    `HandleMiddleware` folds over function values, as the Go loop does.
  - `Run` gives a handler's meaning on a state of response, limiter tokens
    and store. `ServeHTTP` runs the same handler on the objects and is
    proved equal to `Run`.
  - The older package's `HandleMiddleware` and `LogRequest` are the same
    code as the live ones, and are modelled by the same members.
- `Legacy` (legacy.dfy): the older package's `DomainValidation`.
- `Router` (router.dfy): `NewRouter` and its route table.
  - Its contract states the run-time order of each route's stages: CORS,
    then LogRequest, then DomainValidation, then RateLimit, then the
    handler. `HandleMiddleware` puts the last stage listed outermost, so
    this is the reverse of the order in which they are listed.
  - The rate configuration `50 / 3600` is 0 in integer arithmetic. So the
    one limiter shared by all four routes admits 50 requests in the
    server's life, not 50 per hour as the comment says.

Facts about the code that the model makes explicit:

- The rate limiter runs last, after CORS and domain validation, so a
  request refused by either never spends a token (`Router.LimiterLast`).
- The limiter's rate is 0, so tokens never come back: the one limiter
  admits 50 requests over the server's life (`Router.LifetimeBudget`).
- A referer of "/" trims to "". It is admitted exactly when the allow-list
  holds "", which is what an unset `ALLOWED_ORIGINS` yields
  (`Cors.SlashReferer`, `Router.SplitEmpty`).
- The allowed methods and headers are set only on `OPTIONS`. Any other
  request from an allowed origin gets only `Access-Control-Allow-Origin`
  (`Cors.AllowedRequest`, `Cors.Preflight`).
- The doc comment of `DomainValidation` says 400. The live code answers
  401, and only the older package answers 400 (`Legacy.OnlyStatusDiffers`).

## Model

| member | source | states |
|---|---|---|
| Http.StatusWritten | api/track/handler.go:133-135 | net/http semantics, as used at these lines: once a status is written, a later WriteHeader leaves it; header and body are unchanged |
| Http.ErrorWritten | api/middleware/middleware.go:47 | http.Error writes the status if none is written yet, appends the message and a newline, and adds only the two plain-text headers |
| Http.Error | api/middleware/middleware.go:47 | the method's effect on the writer is ErrorWritten |
| Http.ResponseWriter.constructor | api/track/handler.go:35 | net/http semantics, as used by this handler: a fresh writer holds no status, no header and no body |
| Http.ResponseWriter.Set | api/track/handler.go:68 | w.Header().Set changes that one header |
| Http.ResponseWriter.WriteHeader | api/track/handler.go:106 | the writer's status follows StatusWritten: first write wins |
| Http.ResponseWriter.Write | api/track/handler.go:69 | net/http semantics, as used at this line: Write sends 200 first when no status was written, then appends the data |
| Http.ResponseWriter.Abort | api/track/handler.go:39 | a handler panic leaves status, headers and body as they were and marks the response aborted |
| Url.DomainFromOrigin | api/middleware/middleware.go:100-112 | for scheme://host[:port], with a host of characters url.Parse accepts in a host (no port or bracket delimiters, no escapes) and a numeric or empty port, the domain is the host without the port |
| Url.SplitNoPort | api/middleware/middleware.go:106-109 | SplitHostPort fails on a host without a colon, so the host is returned whole |
| Url.SplitWithPort | api/middleware/middleware.go:106-111 | SplitHostPort splits host:port at the colon |
| Url.BadPort | api/middleware/middleware.go:101-104 | an origin whose port is not all digits fails to parse and gives "" |
| Url.NoSchemeOrigin | api/middleware/middleware.go:101-104 | an origin starting with ':' has no scheme, fails to parse and gives "" |
| Url.ParseAbsolute | api/track/handler.go:265 | url.Parse of scheme://host[:port]path, with such a host and a path without escapes, gives that scheme, host and path |
| Url.ParseOrigin | api/track/handler.go:251 | url.Parse of an origin with such a host gives its host and an empty path |
| Url.PageFromURL | api/track/handler.go:264-276 | for a URL with such a host and a path without escapes, the page is the URL's path, or "/" when the path is empty |
| Url.HostParses | api/track/handler.go:251 | a host of characters url.Parse accepts in a host, with an optional numeric port, is accepted as the URL host |
| Url.BadPortHost | api/track/handler.go:251-254 | a host whose port has a non-digit is refused |
| Url.Parse | api/track/handler.go:265 | a parsed URL's host holds only characters url.Parse accepts in a host, and its path holds no '#' or '?': the fragment and the query are split off |
| Url.SplitHostPort | api/middleware/middleware.go:106-111 | a string without ':' is an error; a split gives a port without ':' and a host taken from the input, which rejoin to the input (the host in brackets when the input starts with '[') |
| Url.GetDomainFromOrigin | api/middleware/middleware.go:100-112 | the domain holds only characters url.Parse accepts in a host, so never a space, '/', '@', '%' or control byte; an origin that does not parse gives "" |
| Url.GetPageFromURL | api/track/handler.go:264-276 | the page is "" exactly when the URL does not parse, and never holds a query or a fragment |
| Url.BadPortParse | api/track/handler.go:265 | url.Parse refuses scheme://host:port[path] whose port is not all digits |
| Url.BadURLPage | api/track/handler.go:265-269 | a page URL whose port is not all digits gives the page "" |
| Url.BadCharParse | api/track/handler.go:265 | url.Parse refuses a host holding a character it does not accept in a host: a space, a brace, a vertical bar, a backslash, a caret, a backquote, or a '%' that ends the host |
| Url.BadHostChar | api/middleware/middleware.go:101-104 | an origin whose host holds such a character fails to parse and gives "" |
| Url.BadHostPage | api/track/handler.go:265-269 | a page URL whose host holds such a character gives the page "" |
| Rate.Allowed | api/middleware/middleware.go:45 | Allow on a zero-rate limiter admits exactly when a token is left and then takes one |
| Rate.FirstCallsAdmitted | api/router/router.go:24-29 | on a zero-rate limiter holding t tokens, call i is admitted exactly when i < t |
| Rate.TokensSpent | api/router/router.go:24-29 | after n calls, t - n tokens are left, or 0 once n >= t |
| Rate.Limiter.constructor | api/router/router.go:29 | NewLimiter starts with its burst of tokens |
| Rate.Limiter.Allow | api/middleware/middleware.go:45 | the limiter's answer and token count follow Allowed |
| Repo.FindDomain | api/track/repository.go:48-55 | the index of the first row for the domain, or -1 exactly when there is none |
| Repo.FindKey | api/track/repository.go:59-70 | the index of the first row with the key, or -1 exactly when there is none |
| Repo.FindPage | api/track/repository.go:92-103 | the index of the first page of the domain with the URL, or -1 exactly when there is none |
| Repo.GetDomain | api/track/repository.go:48-55 | no row is an error, NoRows exactly when the database does not fail; a found id belongs to a row of that domain |
| Repo.GetDomainIDFromKey | api/track/repository.go:59-71 | no row gives id 0 and no error; only a database failure is an error |
| Repo.GetDomainKeyPair | api/track/repository.go:79-89 | no row gives NoRows; a found pair is the domain and a key stored for it |
| Repo.GetPage | api/track/repository.go:92-104 | no row gives id 0 and no error; on a valid store the id is 0 exactly when there is no such page |
| Repo.CreatePage | api/track/repository.go:107-119 | on success a page row with the next id is appended and that id returned |
| Repo.SaveUTM | api/track/repository.go:137-150 | on success a UTM row with the next id is appended |
| Repo.SaveClick | api/track/repository.go:153-173 | on success a click row with the next id is appended |
| Repo.CreatedPageIsFresh | api/track/repository.go:107-119 | CreatePage keeps the store valid and returns a positive id no stored page has |
| Repo.CreateThenGet | api/track/repository.go:92-119 | after CreatePage of a page not stored, GetPage finds the created id |
| Database.Repository.constructor | api/track/repository.go:13-15 | the repository starts on the given store |
| Database.Repository.GetDomain | api/track/repository.go:48-56 | the method's reply and new store are GetDomain's |
| Database.Repository.GetDomainIDFromKey | api/track/repository.go:59-71 | the method's reply and new store are GetDomainIDFromKey's |
| Database.Repository.GetDomainKeyPair | api/track/repository.go:79-89 | the method's reply and new store are GetDomainKeyPair's |
| Database.Repository.GetPage | api/track/repository.go:92-104 | the method's reply and new store are GetPage's |
| Database.Repository.CreatePage | api/track/repository.go:107-119 | the method's reply and new store are CreatePage's |
| Database.Repository.SaveUTM | api/track/repository.go:137-150 | the method's reply and new store are SaveUTM's |
| Database.Repository.SaveClick | api/track/repository.go:153-173 | the method's reply and new store are SaveClick's |
| Service.Validated | api/service/service.go:20-42 | true exactly when the lookup does not fail, the domain is not empty, a row for it exists and its key equals the given key exactly; the store only records the one lookup |
| Service.UnknownLikeWrongKey | api/service/service.go:23-39 | an unknown domain and a wrong key both give false and leave the tables as they were |
| Service.ReadOnly | api/service/service.go:23 | validation changes no table and makes exactly one call, GetDomainKeyPair |
| Service.Service.constructor | api/service/service.go:12-16 | the service holds the repository it is given |
| Service.Service.ValidateDomainKeyPair | api/service/service.go:20-42 | the method's answer and the store it leaves are Validated's |
| Track.StringField | api/track/handler.go:26-32 | an absent or null member decodes to "", a string to itself, anything else is a decode error |
| Track.DecodeUTM | api/track/handler.go:110-116 | a malformed body is a decode error; a null body leaves the struct zero |
| Track.DecodeClick | api/track/handler.go:191-197 | a malformed body is a decode error; a null body gives a nil element and an empty URL |
| Track.Save | api/track/handler.go:162 | the save fails exactly when its call fails, is logged, and leaves domains and pages alone |
| Track.GetOrCreatePage | api/track/handler.go:139-158 | GetPage's failure or found id is returned as is, no page found means CreatePage; only the pages change, by at most one new row with the next id, and that id is the one returned |
| Track.StoreEvent | api/track/handler.go:128-170 | a status is always written and nothing else of the response changes; at most one page and one event, of the event's kind, are added; a 200 means the domain is registered and the event was stored |
| Track.Track | api/track/handler.go:101-171 | a status is always written; the domains are untouched and at most one event is added; a 200 means a POST with a decodable body and an Origin whose domain is registered, and exactly one stored event |
| Track.TrackUTM | api/track/handler.go:101-171 | a status is always written and clicks are untouched; a 200 means the Origin's domain is registered and one UTM row was added |
| Track.TrackClick | api/track/handler.go:181-247 | a status is always written and UTM rows are untouched; a 200 means the Origin's domain is registered and one click row was added |
| Track.ServeJS | api/track/handler.go:35-70 | it aborts exactly on a path shorter than the prefix; the store only records the key lookup; a script is written only for a registered key, as the generated script with the JavaScript content type |
| Track.GetOrCreateFinds | api/track/handler.go:138-158 | on a valid store the id returned is that of the first stored page of the domain and URL, and at most the one created page is added |
| Track.GetOrCreateTwice | api/track/handler.go:138-158 | running get-or-create again returns the same id and creates no page |
| Track.TrackUTMHandler | api/track/handler.go:101-171 | the handler's effect on the writer and the store is TrackUTM's |
| Track.TrackClickHandler | api/track/handler.go:181-247 | the handler's effect on the writer and the store is TrackClick's |
| Track.ServeJSHandler | api/track/handler.go:35-70 | the handler's effect on the writer and the store is ServeJS's |
| Track.ChecksFirst | api/track/handler.go:104-116 | a non-POST method or an undecodable body gets 400 with no repository call |
| Track.MissingOrigin | api/track/handler.go:121-126 | a missing Origin gets 401 with no repository call |
| Track.PastChecks | api/track/handler.go:128-138 | past the checks the handler looks up the Origin's domain and the page of the event's URL |
| Track.UnknownDomainGoesOn | api/track/handler.go:132-139 | an unknown domain writes 401 but the page is still looked up with domain id 0, and the client sees 401 |
| Track.UnknownDomainNewPage | api/track/handler.go:132-170 | an unknown domain with no page of domain id 0 for the URL: the page is created under domain id 0, the event is saved on it, and the client gets 401 |
| Track.UnknownDomainExistingPage | api/track/handler.go:132-170 | an unknown domain with a page already stored under domain id 0: that page's id goes to the save, no page is created, and the client gets 401 |
| Track.ExistingPage | api/track/handler.go:139-170 | a known domain and stored page: no page is created, the page's id is saved, and the answer is 200 |
| Track.NewPage | api/track/handler.go:146-170 | a page not stored yet is created once, its new id is saved, and the answer is 200 |
| Track.ErrorsStop | api/track/handler.go:139-167 | a failing GetPage, CreatePage or save answers 500 and no repository call follows |
| Track.ServeJSOutcomes | api/track/handler.go:39-70 | empty key 400 with no lookup; lookup error 500; unknown key 401; otherwise the script as JavaScript, or 500 when none was generated |
| Track.ShortPathPanics | api/track/handler.go:39 | a path shorter than the prefix panics and nothing is written |
| Cors.Trimmed | api/router/router.go:67-69 | exactly one trailing '/' is removed when there is one |
| Cors.HandleCORS | api/router/router.go:60-100 | the closure's flag search and header writes agree with Decide, including whether next is called |
| Cors.MissingReferer | api/router/router.go:62-66 | no Referer gives 401 "Missing Referer header", no CORS header and no next |
| Cors.CallsNextIff | api/router/router.go:67-98 | next runs exactly when the method is not OPTIONS and the trimmed referer is in the allow-list |
| Cors.Preflight | api/router/router.go:79-89 | OPTIONS from an allowed origin gets 200 and the three CORS headers, and no next |
| Cors.AllowedRequest | api/router/router.go:91-98 | any other method from an allowed origin gets only Allow-Origin, set to the trimmed referer, then next |
| Cors.Rejected | api/router/router.go:79-96 | an origin not allowed gets 401 "Origin not allowed" for every method and no Allow-Origin; OPTIONS has its two headers set first |
| Cors.TrimsOneSlash | api/router/router.go:67-77 | a referer is allowed exactly when it, without its one trailing '/', equals an entry |
| Cors.SlashReferer | api/router/router.go:67-77 | a referer of "/" is allowed exactly when the allow-list holds "" |
| Middleware.HandleMiddleware | api/middleware/middleware.go:24-29 | the loop returns mk(...m1(next)), next itself when there are no stages |
| Middleware.NestAppend | api/middleware/middleware.go:24-29 | stacking a + b is stacking a and then b |
| Middleware.Validation | api/middleware/middleware.go:72-97 | validation leaves the tokens, touches the store at most by the key-pair lookup, and writes nothing when it lets the request through |
| Middleware.Gate | api/middleware/middleware.go:42-97 | only a rate-limit stage changes tokens, only of its own limiter and never upward; only validation touches the store |
| Middleware.Serve | api/track/handler.go:101-247 | handlers do not touch the limiters |
| Middleware.Run | api/middleware/middleware.go:32-97 | serving a request never adds tokens, and changes only the limiters of the handler |
| Middleware.LogPassesThrough | api/middleware/middleware.go:32-38 | LogRequest calls next once with the same request and state |
| Middleware.RateLimitAdmits | api/middleware/middleware.go:42-52 | with a token left, RateLimit takes it and calls next |
| Middleware.RateLimitRefuses | api/middleware/middleware.go:45-49 | with none left, 429 "Too Many Requests" and next does not run |
| Middleware.IgnoreHeader | api/middleware/middleware.go:58-68 | X-Ignore-Tracking "true" ends the request with nothing written; anything else, or no header, runs next |
| Middleware.MissingHeaders | api/middleware/middleware.go:75-87 | a missing Origin gets 401 before X-Site-Key is examined, and a missing X-Site-Key gets 401, both without a repository call |
| Middleware.ValidatorDecides | api/middleware/middleware.go:89-95 | with both headers the service's answer alone decides: false writes 401 "Invalid domain key pair" and does not call next; true calls next with nothing written, on the store the lookup left |
| Middleware.ValidationDecides | api/middleware/middleware.go:89-95 | the same for a validation stage refusing with any status |
| Middleware.Validate | api/middleware/middleware.go:74-97 | the closure's early returns have Validation's effect on writer and store |
| Middleware.Limit | api/middleware/middleware.go:42-52 | one Allow() on the shared limiter and the 429 on refusal have Gate's effect on the limiters and the writer |
| Middleware.Pass | api/middleware/middleware.go:32-97 | each stage's work on the objects is Gate's |
| Middleware.ServeEndpoint | api/track/handler.go:101-247 | calling a handler has Serve's effect |
| Middleware.ServeHTTP | api/middleware/middleware.go:32-97 | serving a request on the writer, repository and limiters has Run's effect |
| Legacy.MissingHeaders | api/router/middleware/middleware.go:43-54 | a missing Origin gets 400 before X-Site-Key is examined; a missing X-Site-Key gets 400 with no service call |
| Legacy.ValidatorDecides | api/router/middleware/middleware.go:56-62 | with both headers an invalid pair writes 400 "Invalid domain key pair" and does not call next; a valid one calls next on the store the lookup left |
| Legacy.OnlyStatusDiffers | api/router/middleware/middleware.go:40-64 | both validations let the same requests through with the same store, headers and body; only the refusal status differs, 400 against 401 |
| Router.PerSecond | api/router/router.go:24-26 | Go's division truncates, so 50 requests per hour is 0 per second |
| Router.Split | api/router/router.go:50 | strings.Split gives at least one piece and no piece holds the separator |
| Router.JoinSplit | api/router/router.go:50 | joining the pieces with the separator gives back the string |
| Router.SplitJoin | api/router/router.go:50 | splitting a join of separator-free pieces gives back the pieces |
| Router.FirstSeparator | api/router/router.go:50 | splitting a + sep + b, where a holds no separator, gives a followed by the pieces of b |
| Router.SplitEmpty | api/router/router.go:49-50 | an unset ALLOWED_ORIGINS gives the allow-list [""] |
| Router.WithCORS | api/router/router.go:52-55 | every route keeps its path and gets its handler wrapped in the CORS gate |
| Router.StacksShape | api/router/router.go:32-46 | HandleMiddleware puts LogRequest outermost, then DomainValidation, then RateLimit on the tracking routes |
| Router.ShapeLimiters | api/router/router.go:32-46 | each stack uses exactly the limiter it was built with |
| Router.Table | api/router/router.go:32-55 | the four paths, and each route's run-time order: CORS, LogRequest, DomainValidation (401), RateLimit, handler; CORS, ignore check, RateLimit, handler for /serve/js/ |
| Router.ServeMux.constructor | api/router/router.go:21 | a new mux has no routes |
| Router.ServeMux.HandleFunc | api/router/router.go:54 | registering appends the route |
| Router.NewRouter | api/router/router.go:20-58 | a new limiter with 50 tokens, and a mux holding exactly the route table over that one limiter |
| Router.NestOne | api/middleware/middleware.go:24-29 | one stage wraps next once |
| Router.NestTwo | api/middleware/middleware.go:24-29 | with two stages the second listed is outermost |
| Router.SharedLimiter | api/router/router.go:29-46 | all four routes use the one limiter and no other |
| Router.LimiterLast | api/router/router.go:32-54 | a request turned away by CORS, validation or the ignore header never reaches the limiter and keeps every token |
| Router.Exhausted | api/router/router.go:24-46 | with the limiter empty no handler runs on any route, tokens stay 0, the store gains at most the key-pair lookup, and a request past the other checks gets 429 |
| Router.AtMostOneToken | api/router/router.go:29-46 | a request takes at most one token |
| Router.Serves | api/router/router.go:29 | serving requests in turn keeps the same limiters |
| Router.LifetimeBudget | api/router/router.go:24-29 | over a run of n requests the limiter loses at most n tokens and never gains any; once empty it stays empty |

## Left out

- Logging: the logger calls in every handler have no effect on any decision.
- Go's JSON decoding is modelled only as far as the handlers depend on it.
  - A body is either malformed or one JSON value.
  - Numbers, booleans and arrays are kept as text.
  - Field names match exactly: Go's case-insensitive field matching and
    trailing data after the first value are not modelled.
- url.Parse is modelled for the shapes the handlers see: scheme, "//",
  host with an optional port, then a path.
  - Percent-decoding, user information, IPv6 literals and their zones,
    scheme case-folding and query or fragment handling beyond refusing
    control bytes are not modelled.
  - The host-character check of url.parseHost is modelled: a space, '{',
    '}', a vertical bar, a backslash, '^', a backquote and control bytes
    are refused in a host (`Url.HostChar`).
- Url.ParseHost: refuses every '%' in a host. url.Parse accepts "%25" and
  escapes of non-ASCII bytes there, and decodes them; the model does not
  decode escapes, so hosts holding them parse in Go but not in the model.
  `Url.PlainHost` excludes '%', so the lemmas about hosts that parse speak
  only of hosts on which the two agree.
- Url.Parse: does not validate or decode percent-escapes in a path. Go
  refuses an invalid escape ("/%zz") and decodes a valid one ("/b%20c"
  becomes "/b c"). The model keeps the path as written, so for such URLs
  the page a handler looks up and creates differs from Go's.
  Url.ParseAbsolute and Url.PageFromURL are stated only for paths without
  '%', on which the two agree.
- Track.ServeJS: measures and slices the request path in characters, while
  Go's `r.URL.Path[len("/serve/js/"):]` works on UTF-8 bytes. The two agree
  on every path whose first ten characters are ASCII, which includes every
  path the "/serve/js/" route is given. They differ on a path with a
  non-ASCII character among its first ten bytes: "/serve/jé" is nine
  characters but ten bytes, so the model aborts where Go answers 400.
  Track.ServeJSHandler and Track.ServeJSOutcomes inherit this.
- Track.ShortPathPanics: "shorter than the prefix" is counted in
  characters, not in Go's bytes, as the Track.ServeJS line explains.
- Header names are looked up exactly as written. Go's canonicalisation of
  header keys is not modelled.
- The repository's SQL text, `LastInsertId` and MySQL's collation (which
  may match strings case-insensitively) are not modelled. Queries compare
  strings exactly and return the first matching row.
- GenerateClientJS reads a file, an environment variable and runs a
  minifier. It is a function parameter that may return "".
- TrackPageViewHandler and ServeTrackJSHandler are referred to by the
  router but are not part of api/track/handler.go. They are the `Unseen`
  endpoints, whose effect is a parameter.
- Rate.Limiter models only the zero-rate limiter the router builds.
  - Refill at a positive rate is not modelled.
  - Neither is the limiter's locking: requests are served one at a time.
- Concurrency is not modelled: two requests interleaving between the page
  lookup and the page creation could both create the page.
- Request dispatch by `http.ServeMux` (longest-prefix path matching) is not
  modelled. `Router.Serves` takes the route index of each request as given.
- Router.NewRouter: reads ALLOWED_ORIGINS as a parameter, not from the
  environment.
- main.go, config/config.go and the server's start-up and shutdown are not
  part of this model.
