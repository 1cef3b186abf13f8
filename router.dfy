/** NewRouter (api/router/router.go): one rate limiter for every route, each
    route's stages stacked with HandleMiddleware, and every route wrapped in
    the CORS gate over the comma-separated ALLOWED_ORIGINS. */
module Router {
  import opened Http
  import opened Url
  import opened Repo
  import opened Rate
  import opened Service
  import opened Cors
  import opened Middleware

  /** The rate configuration: "max 50 requests per hour", computed per
      second in integer arithmetic. */
  const AllowedReqPerHour: int := 50
  const SecondsPerHour: int := 3600
  const Burst: nat := 50

  /** Go's integer division of non-negative numbers, which truncates. */
  function PerSecond(perHour: nat, secondsPerHour: nat): (r: nat)
    requires secondsPerHour > 0
    ensures r * secondsPerHour <= perHour < (r + 1) * secondsPerHour
    ensures perHour < secondsPerHour ==> r == 0
  {
    perHour / secondsPerHour
  }

  /** handleCORS(allowedOrigins, next) */
  function HandleCORS(allowed: seq<string>, next: Handler): Handler
  {
    Wrap(CorsStage(allowed), next)
  }

  datatype Route = Route(path: string, handler: Handler)

  /** strings.Split(s, string(sep)): the pieces between separators; "" gives
      [""]. */
  function Split(s: string, sep: char): (parts: seq<string>)
    ensures |parts| >= 1
    ensures forall i :: 0 <= i < |parts| ==> sep !in parts[i]
    decreases |s|
  {
    var i := IndexOf(s, sep);
    if i < 0 then [s] else [s[..i]] + Split(s[i + 1..], sep)
  }

  /** strings.Join(parts, string(sep)) */
  function Join(parts: seq<string>, sep: char): string
    requires |parts| >= 1
  {
    if |parts| == 1 then parts[0] else parts[0] + [sep] + Join(parts[1..], sep)
  }

  /** Joining the pieces gives back the string split. */
  lemma {:induction false} JoinSplit(s: string, sep: char)
    ensures Join(Split(s, sep), sep) == s
    decreases |s|
  {
    var i := IndexOf(s, sep);
    if i >= 0 {
      var head, rest := s[..i], s[i + 1..];
      var parts := Split(rest, sep);
      assert Split(s, sep) == [head] + parts;
      JoinSplit(rest, sep);
      JoinCons(head, parts, sep);
      AroundIndex(s, i);
    }
  }

  /** A string is what comes before index i, the character at i, and what
      follows it. */
  lemma AroundIndex(s: string, i: int)
    requires 0 <= i < |s|
    ensures s == s[..i] + [s[i]] + s[i + 1..]
  {
  }

  lemma JoinCons(first: string, rest: seq<string>, sep: char)
    requires |rest| >= 1
    ensures Join([first] + rest, sep) == first + [sep] + Join(rest, sep)
  {
    assert ([first] + rest)[1..] == rest;
  }

  /** Splitting a join of separator-free pieces gives back the pieces. */
  lemma {:induction false} SplitJoin(parts: seq<string>, sep: char)
    requires |parts| >= 1
    requires forall i :: 0 <= i < |parts| ==> sep !in parts[i]
    ensures Split(Join(parts, sep), sep) == parts
    decreases |parts|
  {
    if |parts| > 1 {
      var tail := parts[1..];
      var rest := Join(tail, sep);
      assert Join(parts, sep) == parts[0] + [sep] + rest;
      assert sep !in parts[0];
      FirstSeparator(parts[0], rest, sep);
      assert forall i :: 0 <= i < |tail| ==> tail[i] == parts[i + 1];
      SplitJoin(tail, sep);
      assert [parts[0]] + tail == parts;
    } else {
      assert sep !in parts[0];
    }
  }

  /** The first separator of a + [sep] + b, when a holds none, is the one
      after a. */
  lemma FirstSeparator(a: string, b: string, sep: char)
    requires sep !in a
    ensures Split(a + [sep] + b, sep) == [a] + Split(b, sep)
  {
    var s := a + [sep] + b;
    var i := IndexOf(s, sep);
    assert s[|a|] == sep;
    assert i == |a|;
    assert s[..i] == a;
    assert s[i + 1..] == b;
  }

  /** An unset ALLOWED_ORIGINS gives an allow-list holding only "". */
  lemma SplitEmpty(sep: char)
    ensures Split("", sep) == [""]
  {
  }

  /** The stacks NewRouter builds, before the CORS gate: for the tracking
      routes LogRequest(DomainValidation(RateLimit(handler))), and for the
      script route CheckForIgnoreHeader(RateLimit(handler)). */
  function Stacks(limiter: Limiter): seq<Route>
  {
    [ Route("/api/v1/track/utm", Nest(RateLimit(Final(TrackUTMEndpoint), limiter), [DomainValidation, LogRequest])),
      Route("/api/v1/track/click", Nest(RateLimit(Final(TrackClickEndpoint), limiter), [DomainValidation, LogRequest])),
      Route("/api/v1/track/pageview", Nest(RateLimit(Final(Unseen("TrackPageViewHandler")), limiter), [DomainValidation, LogRequest])),
      Route("/serve/js/", Nest(RateLimit(Final(Unseen("ServeTrackJSHandler")), limiter), [CheckForIgnoreHeader])) ]
  }

  /** The routes with every handler wrapped in the CORS gate. */
  function WithCORS(allowed: seq<string>, routes: seq<Route>): (r: seq<Route>)
    ensures |r| == |routes|
    ensures forall i :: 0 <= i < |routes| ==> r[i] == Route(routes[i].path, HandleCORS(allowed, routes[i].handler))
  {
    if routes == [] then []
    else [Route(routes[0].path, HandleCORS(allowed, routes[0].handler))] + WithCORS(allowed, routes[1..])
  }

  /** The handlers behind the three tracking routes, in route order. */
  const TrackingEndpoints: seq<Endpoint> := [TrackUTMEndpoint, TrackClickEndpoint, Unseen("TrackPageViewHandler")]

  /** The paths NewRouter registers, in order. */
  const Paths: seq<string> := ["/api/v1/track/utm", "/api/v1/track/click", "/api/v1/track/pageview", "/serve/js/"]

  /** The stages HandleMiddleware stacks, outermost first: for the tracking
      routes LogRequest, DomainValidation (401), RateLimit, then the handler,
      as the fold puts the last stage listed outermost. */
  lemma {:induction false} StacksShape(limiter: Limiter)
    ensures var s := Stacks(limiter);
      && (forall i :: 0 <= i < 3 ==>
            s[i].handler == Wrap(LogStage, Wrap(ValidationStage(StatusUnauthorized), Wrap(RateLimitStage(limiter), Final(TrackingEndpoints[i])))))
      && s[3].handler == Wrap(IgnoreStage, Wrap(RateLimitStage(limiter), Final(Unseen("ServeTrackJSHandler"))))
  {
    NestOne(RateLimit(Final(Unseen("ServeTrackJSHandler")), limiter), CheckForIgnoreHeader);
    NestTwo(RateLimit(Final(TrackUTMEndpoint), limiter), DomainValidation, LogRequest);
    NestTwo(RateLimit(Final(TrackClickEndpoint), limiter), DomainValidation, LogRequest);
    NestTwo(RateLimit(Final(Unseen("TrackPageViewHandler")), limiter), DomainValidation, LogRequest);
  }

  /** The limiter of each stack is the one it was built with. */
  lemma ShapeLimiters(allowed: seq<string>, limiter: Limiter)
    ensures forall e :: LimitersOf(Wrap(CorsStage(allowed), Wrap(LogStage, Wrap(ValidationStage(StatusUnauthorized),
                          Wrap(RateLimitStage(limiter), Final(e)))))) == {limiter}
    ensures forall e :: LimitersOf(Wrap(CorsStage(allowed), Wrap(IgnoreStage, Wrap(RateLimitStage(limiter), Final(e))))) == {limiter}
  {
    forall e: Endpoint
      ensures LimitersOf(Wrap(CorsStage(allowed), Wrap(LogStage, Wrap(ValidationStage(StatusUnauthorized),
                Wrap(RateLimitStage(limiter), Final(e)))))) == {limiter}
      ensures LimitersOf(Wrap(CorsStage(allowed), Wrap(IgnoreStage, Wrap(RateLimitStage(limiter), Final(e))))) == {limiter}
    {
      var rl := Wrap(RateLimitStage(limiter), Final(e));
      assert LimitersOf(rl) == {limiter};
      assert LimitersOf(Wrap(ValidationStage(StatusUnauthorized), rl)) == {limiter};
      assert LimitersOf(Wrap(LogStage, Wrap(ValidationStage(StatusUnauthorized), rl))) == {limiter};
      assert LimitersOf(Wrap(IgnoreStage, rl)) == {limiter};
    }
  }

  /** The route table NewRouter registers, and the run-time order of each
      route's stages: CORS, LogRequest, DomainValidation (401), RateLimit,
      then the handler on the tracking routes; CORS, the ignore check,
      RateLimit, then the handler on the script route. */
  function Table(origins: string, limiter: Limiter): (t: seq<Route>)
    ensures |t| == 4
    ensures forall i :: 0 <= i < 4 ==> t[i].path == Paths[i]
    ensures forall i :: 0 <= i < 3 ==>
      t[i].handler ==
        Wrap(CorsStage(Split(origins, ',')), Wrap(LogStage, Wrap(ValidationStage(StatusUnauthorized),
          Wrap(RateLimitStage(limiter), Final(TrackingEndpoints[i])))))
    ensures t[3].handler ==
      Wrap(CorsStage(Split(origins, ',')), Wrap(IgnoreStage, Wrap(RateLimitStage(limiter), Final(Unseen("ServeTrackJSHandler")))))
    ensures forall i :: 0 <= i < 4 ==> LimitersOf(t[i].handler) == {limiter}
  {
    StacksShape(limiter);
    ShapeLimiters(Split(origins, ','), limiter);
    WithCORS(Split(origins, ','), Stacks(limiter))
  }

  /** http.ServeMux, as far as NewRouter uses it: the routes registered, in
      order. */
  class ServeMux {
    var routes: seq<Route>

    constructor ()
      ensures routes == []
    {
      routes := [];
    }

    method HandleFunc(path: string, handler: Handler)
      modifies this
      ensures routes == old(routes) + [Route(path, handler)]
    {
      routes := routes + [Route(path, handler)];
    }
  }

  /** NewRouter, with the ALLOWED_ORIGINS variable passed in. The rate per
      second is 0, so the limiter is the zero-rate limiter of module Rate:
      50 requests in its lifetime, shared by the four routes. */
  method NewRouter(origins: string) returns (router: ServeMux, limiter: Limiter)
    ensures fresh(router) && fresh(limiter)
    ensures limiter.burst == Burst
    ensures router.routes == Table(origins, limiter)
  {
    router := new ServeMux();

    var ratePerSecond := PerSecond(AllowedReqPerHour, SecondsPerHour);
    assert ratePerSecond == 0;
    limiter := new Limiter(Burst);

    var utm := HandleMiddleware(RateLimit(Final(TrackUTMEndpoint), limiter), [DomainValidation, LogRequest]);
    var click := HandleMiddleware(RateLimit(Final(TrackClickEndpoint), limiter), [DomainValidation, LogRequest]);
    var pageView := HandleMiddleware(RateLimit(Final(Unseen("TrackPageViewHandler")), limiter), [DomainValidation, LogRequest]);
    var serveJS := HandleMiddleware(RateLimit(Final(Unseen("ServeTrackJSHandler")), limiter), [CheckForIgnoreHeader]);
    var routes := [Route("/api/v1/track/utm", utm), Route("/api/v1/track/click", click),
                   Route("/api/v1/track/pageview", pageView), Route("/serve/js/", serveJS)];
    assert routes == Stacks(limiter);

    var allowedOrigins := Split(origins, ',');

    for i := 0 to |routes|
      invariant |router.routes| == i
      invariant forall k :: 0 <= k < i ==> router.routes[k] == Route(routes[k].path, HandleCORS(allowedOrigins, routes[k].handler))
      invariant limiter.burst == Burst
    {
      var corsHandler := HandleCORS(allowedOrigins, routes[i].handler);
      router.HandleFunc(routes[i].path, corsHandler);
    }
    assert router.routes == WithCORS(allowedOrigins, Stacks(limiter));
    assert WithCORS(allowedOrigins, Stacks(limiter)) == Table(origins, limiter);
  }

  lemma NestOne(next: Handler, m: Handler -> Handler)
    ensures Nest(next, [m]) == m(next)
  {
    assert [m][..0] == [];
  }

  lemma NestTwo(next: Handler, m1: Handler -> Handler, m2: Handler -> Handler)
    ensures Nest(next, [m1, m2]) == m2(m1(next))
  {
    assert [m1, m2][..1] == [m1];
    NestOne(next, m1);
  }

  /** All four routes use the one limiter NewRouter built, and no other. */
  lemma SharedLimiter(origins: string, limiter: Limiter)
    ensures forall i :: 0 <= i < |Table(origins, limiter)| ==> LimitersOf(Table(origins, limiter)[i].handler) == {limiter}
  {
  }

  /** What the request's own headers decide before the limiter is asked:
      the CORS gate, then (on the tracking routes) domain validation, or
      (on the script route) the ignore header. The state it leaves, and
      whether the request goes on to the limiter. */
  function BeforeLimiter(origins: string, i: int, r: Request, st: State): (out: (State, bool))
    ensures out.0.tokens == st.tokens
    ensures out.0.store == st.store || out.0.store == Record(st.store, GetDomainKeyPairCall(GetDomainFromOrigin(Get(r.header, "Origin"))))
  {
    var (st1, corsOk) := Gate(CorsStage(Split(origins, ',')), r, st);
    if !corsOk then (st1, false)
    else if i < 3 then Gate(ValidationStage(StatusUnauthorized), r, st1)
    else Gate(IgnoreStage, r, st1)
  }

  /** On every route, a request the CORS gate, domain validation or the
      ignore header turns away never reaches the limiter: the state is the
      one those checks left, tokens included. A request that gets past them
      is answered by RateLimit in front of its handler. */
  lemma {:induction false} LimiterLast(env: Env, origins: string, limiter: Limiter, i: int, r: Request, st: State)
    requires 0 <= i < 4 && limiter in st.tokens
    ensures var (st1, pass) := BeforeLimiter(origins, i, r, st);
      && st1.tokens == st.tokens
      && (!pass ==> Run(env, Table(origins, limiter)[i].handler, r, st) == st1)
      && (pass ==> Run(env, Table(origins, limiter)[i].handler, r, st) ==
                     Run(env, RateLimit(Final(if i < 3 then TrackingEndpoints[i] else Unseen("ServeTrackJSHandler")), limiter), r, st1))
  {
    var h := Table(origins, limiter)[i].handler;
    var (stc, corsOk) := Gate(CorsStage(Split(origins, ',')), r, st);
    var e := if i < 3 then TrackingEndpoints[i] else Unseen("ServeTrackJSHandler");
    if corsOk && i < 3 {
      var rest := Wrap(ValidationStage(StatusUnauthorized), RateLimit(Final(e), limiter));
      assert Run(env, h, r, st) == Run(env, Wrap(LogStage, rest), r, stc);
      assert Gate(LogStage, r, stc) == (stc, true);
    }
  }

  /** Once the limiter is empty, no request on any route reaches a handler:
      the tokens stay at 0, the store gains at most the key-pair lookup of
      domain validation, and a request that gets past the other checks is
      answered 429 "Too Many Requests". */
  lemma {:induction false} Exhausted(env: Env, origins: string, limiter: Limiter, i: int, r: Request, st: State)
    requires 0 <= i < 4 && limiter in st.tokens && st.tokens[limiter] == 0
    ensures var out := Run(env, Table(origins, limiter)[i].handler, r, st);
      && out.tokens == st.tokens
      && (out.store == st.store || out.store == Record(st.store, GetDomainKeyPairCall(GetDomainFromOrigin(Get(r.header, "Origin")))))
      && (BeforeLimiter(origins, i, r, st).1 ==>
            out.resp == ErrorWritten(BeforeLimiter(origins, i, r, st).0.resp, "Too Many Requests", StatusTooManyRequests))
  {
    LimiterLast(env, origins, limiter, i, r, st);
    var h := Table(origins, limiter)[i].handler;
    var (st1, pass) := BeforeLimiter(origins, i, r, st);
    if pass {
      var e := if i < 3 then TrackingEndpoints[i] else Unseen("ServeTrackJSHandler");
      RateLimitRefuses(env, Final(e), limiter, r, st1);
      assert Run(env, h, r, st) == st1.(resp := ErrorWritten(st1.resp, "Too Many Requests", StatusTooManyRequests));
    } else {
      assert Run(env, h, r, st) == st1;
    }
  }

  /** A request takes at most one token from the limiter. */
  lemma {:induction false} AtMostOneToken(env: Env, origins: string, limiter: Limiter, i: int, r: Request, st: State)
    requires 0 <= i < 4 && limiter in st.tokens
    ensures Run(env, Table(origins, limiter)[i].handler, r, st).tokens[limiter] + 1 >= st.tokens[limiter]
  {
    LimiterLast(env, origins, limiter, i, r, st);
  }

  /** The server serving requests one after another, each on the route
      with index `.0` and with a fresh response; the state after the last. */
  function Serves(env: Env, origins: string, limiter: Limiter, reqs: seq<(int, Request)>, st: State): (out: State)
    requires limiter in st.tokens
    requires forall k :: 0 <= k < |reqs| ==> 0 <= reqs[k].0 < 4
    ensures out.tokens.Keys == st.tokens.Keys
    decreases |reqs|
  {
    if reqs == [] then st
    else
      SharedLimiter(origins, limiter);
      var st1 := Run(env, Table(origins, limiter)[reqs[0].0].handler, reqs[0].1, st.(resp := Unwritten));
      Serves(env, origins, limiter, reqs[1..], st1)
  }

  /** Over the server's life the limiter never refills: after n requests at
      least burst - n tokens are left, and once it is empty it stays empty
      (so, by Exhausted, every later request is kept from its handler). */
  lemma {:induction false} LifetimeBudget(env: Env, origins: string, limiter: Limiter, reqs: seq<(int, Request)>, st: State)
    requires limiter in st.tokens
    requires forall k :: 0 <= k < |reqs| ==> 0 <= reqs[k].0 < 4
    ensures Serves(env, origins, limiter, reqs, st).tokens[limiter] + |reqs| >= st.tokens[limiter]
    ensures Serves(env, origins, limiter, reqs, st).tokens[limiter] <= st.tokens[limiter]
    ensures st.tokens[limiter] == 0 ==> Serves(env, origins, limiter, reqs, st).tokens == st.tokens
    decreases |reqs|
  {
    if reqs != [] {
      SharedLimiter(origins, limiter);
      var st0 := st.(resp := Unwritten);
      var st1 := Run(env, Table(origins, limiter)[reqs[0].0].handler, reqs[0].1, st0);
      AtMostOneToken(env, origins, limiter, reqs[0].0, reqs[0].1, st0);
      if st.tokens[limiter] == 0 {
        Exhausted(env, origins, limiter, reqs[0].0, reqs[0].1, st0);
      }
      LifetimeBudget(env, origins, limiter, reqs[1..], st1);
    }
  }
}
