/** The middleware of api/middleware/middleware.go and the way handlers are
    stacked. A Go handler is a closure; here a handler is a value that says
    which stages wrap which endpoint, and Run gives its meaning: every stage
    either answers the request itself or calls the next handler once, as
    its last step, with the same request. ServeHTTP runs the same handler
    against the live response writer, repository and rate limiters. */
module Middleware {
  import opened Http
  import opened Url
  import opened Repo
  import opened Database
  import opened Rate
  import opened Service
  import opened Track
  import opened Cors

  /** One layer of a handler. CorsStage is the closure handleCORS builds in
      api/router/router.go; ValidationStage carries the status it answers
      with when it refuses a request. */
  datatype Stage =
    | CorsStage(allowed: seq<string>)
    | LogStage
    | RateLimitStage(limiter: Limiter)
    | IgnoreStage
    | ValidationStage(failStatus: int)

  /** The handler at the bottom of a stack. Unseen stands for a handler
      whose body is not part of this model (TrackPageViewHandler,
      ServeTrackJSHandler). */
  datatype Endpoint = TrackUTMEndpoint | TrackClickEndpoint | ServeJSEndpoint | Unseen(name: string)

  datatype Handler = Final(endpoint: Endpoint) | Wrap(stage: Stage, next: Handler)

  /** What the handlers get from outside: GenerateClientJS, and the effect
      of the handlers whose bodies are not modelled. */
  datatype Env = Env(generate: string -> string, unseen: (string, Request, Response, Store) -> (Response, Store))

  /** Everything a request can change: the response, the tokens left in
      each rate limiter, and the repository. */
  datatype State = State(resp: Response, tokens: map<Limiter, nat>, store: Store)

  /** The rate limiters a handler uses. */
  function LimitersOf(h: Handler): set<Limiter>
  {
    match h
    case Final(_) => {}
    case Wrap(stage, next) => (if stage.RateLimitStage? then {stage.limiter} else {}) + LimitersOf(next)
  }

  // ---- The middleware constructors ----

  /** LogRequest(next): logs, then calls next. */
  function LogRequest(next: Handler): Handler
  {
    Wrap(LogStage, next)
  }

  /** RateLimit(next, limiter) */
  function RateLimit(next: Handler, limiter: Limiter): Handler
  {
    Wrap(RateLimitStage(limiter), next)
  }

  /** CheckForIgnoreHeader(next) */
  function CheckForIgnoreHeader(next: Handler): Handler
  {
    Wrap(IgnoreStage, next)
  }

  /** DomainValidation(next): refuses with 401. */
  function DomainValidation(next: Handler): Handler
  {
    Wrap(ValidationStage(StatusUnauthorized), next)
  }

  /** mk(...m2(m1(next))): the last stage listed ends up outermost. */
  function Nest(next: Handler, mws: seq<Handler -> Handler>): Handler
  {
    if mws == [] then next else mws[|mws| - 1](Nest(next, mws[..|mws| - 1]))
  }

  /** HandleMiddleware: the loop that wraps `next` in each stage in turn. */
  method HandleMiddleware(next: Handler, mws: seq<Handler -> Handler>) returns (h: Handler)
    ensures h == Nest(next, mws)
  {
    h := next;
    for i := 0 to |mws|
      invariant h == Nest(next, mws[..i])
    {
      assert mws[..i + 1][..i] == mws[..i];
      h := mws[i](h);
    }
    assert mws[..|mws|] == mws;
  }

  /** Wrapping in `a` and then in `b` is wrapping in `a + b`. */
  lemma {:induction false} NestAppend(next: Handler, a: seq<Handler -> Handler>, b: seq<Handler -> Handler>)
    ensures Nest(next, a + b) == Nest(Nest(next, a), b)
    decreases |b|
  {
    if b != [] {
      var last := b[|b| - 1];
      assert (a + b)[..|a + b| - 1] == a + b[..|b| - 1];
      NestAppend(next, a, b[..|b| - 1]);
    } else {
      assert a + b == a;
    }
  }

  // ---- What each stage does ----

  /** The domain-validation closure, refusing with `failStatus`: Origin is
      checked first, then X-Site-Key, then the service is asked. */
  function Validation(failStatus: int, r: Request, st: State): (out: (State, bool))
    ensures out.0.tokens == st.tokens
    ensures out.0.store == st.store || out.0.store == Record(st.store, GetDomainKeyPairCall(GetDomainFromOrigin(Get(r.header, "Origin"))))
    ensures out.1 ==> out.0.resp == st.resp
  {
    var origin := Get(r.header, "Origin");
    if origin == "" then (st.(resp := ErrorWritten(st.resp, "Missing Origin header", failStatus)), false)
    else
      var siteKey := Get(r.header, "X-Site-Key");
      if siteKey == "" then (st.(resp := ErrorWritten(st.resp, "Missing X-Site-Key header", failStatus)), false)
      else
        var (ok, s') := Validated(st.store, GetDomainFromOrigin(origin), siteKey);
        if !ok then (st.(resp := ErrorWritten(st.resp, "Invalid domain key pair", failStatus), store := s'), false)
        else (st.(store := s'), true)
  }

  /** A stage's own work: the state it leaves, and whether it calls next. */
  function Gate(stage: Stage, r: Request, st: State): (out: (State, bool))
    requires stage.RateLimitStage? ==> stage.limiter in st.tokens
    ensures out.0.tokens.Keys == st.tokens.Keys
    ensures forall l :: l in st.tokens && !(stage.RateLimitStage? && stage.limiter == l) ==> out.0.tokens[l] == st.tokens[l]
    ensures stage.RateLimitStage? ==> out.0.tokens[stage.limiter] <= st.tokens[stage.limiter]
    ensures !stage.ValidationStage? ==> out.0.store == st.store
  {
    match stage
    case CorsStage(allowed) =>
      var (resp', callNext) := Decide(allowed, r, st.resp);
      (st.(resp := resp'), callNext)
    case LogStage => (st, true)
    case RateLimitStage(l) =>
      var (ok, left) := Rate.Allowed(st.tokens[l]);
      var st' := st.(tokens := st.tokens[l := left]);
      if !ok then (st'.(resp := ErrorWritten(st.resp, "Too Many Requests", StatusTooManyRequests)), false)
      else (st', true)
    case IgnoreStage => (st, Get(r.header, "X-Ignore-Tracking") != "true")
    case ValidationStage(failStatus) => Validation(failStatus, r, st)
  }

  /** What an endpoint does. */
  function Serve(env: Env, e: Endpoint, r: Request, st: State): (out: State)
    ensures out.tokens == st.tokens
  {
    var (resp', s') :=
      match e
      case TrackUTMEndpoint => TrackUTM(r, st.resp, st.store)
      case TrackClickEndpoint => TrackClick(r, st.resp, st.store)
      case ServeJSEndpoint => ServeJS(env.generate, r, st.resp, st.store)
      case Unseen(name) => env.unseen(name, r, st.resp, st.store);
    st.(resp := resp', store := s')
  }

  /** The state after handler `h` has served `r`. Rate limiters only lose
      tokens, and only the limiters of `h` change. */
  function Run(env: Env, h: Handler, r: Request, st: State): (out: State)
    requires LimitersOf(h) <= st.tokens.Keys
    ensures out.tokens.Keys == st.tokens.Keys
    ensures forall l :: l in st.tokens ==> out.tokens[l] <= st.tokens[l]
    ensures forall l :: l in st.tokens && l !in LimitersOf(h) ==> out.tokens[l] == st.tokens[l]
    decreases h
  {
    match h
    case Final(e) => Serve(env, e, r, st)
    case Wrap(stage, next) =>
      var (st', callNext) := Gate(stage, r, st);
      if callNext then Run(env, next, r, st') else st'
  }

  // ---- Properties of the stages ----

  /** LogRequest always calls next, once, with the same request. */
  lemma LogPassesThrough(env: Env, next: Handler, r: Request, st: State)
    requires LimitersOf(next) <= st.tokens.Keys
    ensures Run(env, LogRequest(next), r, st) == Run(env, next, r, st)
  {
  }

  /** A limiter with a token left gives one up and calls next. */
  lemma RateLimitAdmits(env: Env, next: Handler, l: Limiter, r: Request, st: State)
    requires LimitersOf(next) <= st.tokens.Keys && l in st.tokens && st.tokens[l] > 0
    ensures Run(env, RateLimit(next, l), r, st) == Run(env, next, r, st.(tokens := st.tokens[l := st.tokens[l] - 1]))
  {
  }

  /** An empty limiter answers 429 "Too Many Requests" and next does not
      run: nothing else changes. */
  lemma RateLimitRefuses(env: Env, next: Handler, l: Limiter, r: Request, st: State)
    requires LimitersOf(next) <= st.tokens.Keys && l in st.tokens && st.tokens[l] == 0
    ensures Run(env, RateLimit(next, l), r, st) == st.(resp := ErrorWritten(st.resp, "Too Many Requests", StatusTooManyRequests))
  {
  }

  /** X-Ignore-Tracking: "true" ends the request with nothing written and
      next not run; any other value, or none, runs next. */
  lemma IgnoreHeader(env: Env, next: Handler, r: Request, st: State)
    requires LimitersOf(next) <= st.tokens.Keys
    ensures Get(r.header, "X-Ignore-Tracking") == "true" ==> Run(env, CheckForIgnoreHeader(next), r, st) == st
    ensures Get(r.header, "X-Ignore-Tracking") != "true" ==> Run(env, CheckForIgnoreHeader(next), r, st) == Run(env, next, r, st)
  {
  }

  /** DomainValidation: a missing Origin is refused first, with 401 and no
      repository call, whatever X-Site-Key holds; then a missing X-Site-Key,
      also without a repository call. */
  lemma MissingHeaders(env: Env, next: Handler, r: Request, st: State)
    requires LimitersOf(next) <= st.tokens.Keys
    ensures Get(r.header, "Origin") == "" ==>
      Run(env, DomainValidation(next), r, st) == st.(resp := ErrorWritten(st.resp, "Missing Origin header", StatusUnauthorized))
    ensures Get(r.header, "Origin") != "" && Get(r.header, "X-Site-Key") == "" ==>
      Run(env, DomainValidation(next), r, st) == st.(resp := ErrorWritten(st.resp, "Missing X-Site-Key header", StatusUnauthorized))
  {
  }

  /** With both headers present the outcome depends only on the service:
      an invalid pair gets 401 "Invalid domain key pair" and next is not
      called; a valid one calls next on the store the lookup left, with
      nothing written. */
  lemma ValidatorDecides(r: Request, st: State, ok: bool, s': Store)
    requires Get(r.header, "Origin") != "" && Get(r.header, "X-Site-Key") != ""
    requires (ok, s') == Validated(st.store, GetDomainFromOrigin(Get(r.header, "Origin")), Get(r.header, "X-Site-Key"))
    ensures Gate(ValidationStage(StatusUnauthorized), r, st) ==
      if ok then (st.(store := s'), true)
      else (st.(resp := ErrorWritten(st.resp, "Invalid domain key pair", StatusUnauthorized), store := s'), false)
  {
    ValidationDecides(StatusUnauthorized, r, st, ok, s');
  }

  /** The same, for a validation stage refusing with any status. */
  lemma ValidationDecides(failStatus: int, r: Request, st: State, ok: bool, s': Store)
    requires Get(r.header, "Origin") != "" && Get(r.header, "X-Site-Key") != ""
    requires (ok, s') == Validated(st.store, GetDomainFromOrigin(Get(r.header, "Origin")), Get(r.header, "X-Site-Key"))
    ensures Gate(ValidationStage(failStatus), r, st) ==
      if ok then (st.(store := s'), true)
      else (st.(resp := ErrorWritten(st.resp, "Invalid domain key pair", failStatus), store := s'), false)
  {
    assert Gate(ValidationStage(failStatus), r, st) == Validation(failStatus, r, st);
  }

  // ---- The same handlers, run on objects ----

  /** The state held by the response writer, the repository and the rate
      limiters in `lims`. */
  ghost function World(w: ResponseWriter, repo: Repository, lims: set<Limiter>): State
    reads w, repo, lims
  {
    State(w.Value(), Tokens(lims), repo.store)
  }

  /** The tokens left in each limiter of `lims`. */
  ghost function Tokens(lims: set<Limiter>): (m: map<Limiter, nat>)
    reads lims
    ensures m.Keys == lims
  {
    map l | l in lims :: l.burst
  }

  /** DomainValidation's closure, asking `svc`. */
  method Validate(svc: Service, failStatus: int, r: Request, w: ResponseWriter, ghost lims: set<Limiter>) returns (callNext: bool)
    modifies w, svc.repo
    ensures (World(w, svc.repo, lims), callNext) == Validation(failStatus, r, old(World(w, svc.repo, lims)))
  {
    var origin := Get(r.header, "Origin");
    if origin == "" {
      Http.Error(w, "Missing Origin header", failStatus);
      return false;
    }
    var siteKey := Get(r.header, "X-Site-Key");
    if siteKey == "" {
      Http.Error(w, "Missing X-Site-Key header", failStatus);
      return false;
    }
    var domain := GetDomainFromOrigin(origin);
    var ok := svc.ValidateDomainKeyPair(domain, siteKey);
    if !ok {
      Http.Error(w, "Invalid domain key pair", failStatus);
      return false;
    }
    return true;
  }

  /** RateLimit's closure, up to the call of next: one Allow() on the
      shared limiter, and 429 when it refuses. */
  method Limit(svc: Service, limiter: Limiter, r: Request, w: ResponseWriter, ghost lims: set<Limiter>) returns (callNext: bool)
    requires limiter in lims
    modifies w, limiter
    ensures (World(w, svc.repo, lims), callNext) == Gate(RateLimitStage(limiter), r, old(World(w, svc.repo, lims)))
  {
    ghost var before := Tokens(lims);
    var ok := limiter.Allow();
    assert Tokens(lims) == before[limiter := limiter.burst];
    if !ok {
      Http.Error(w, "Too Many Requests", StatusTooManyRequests);
      return false;
    }
    callNext := true;
  }

  /** A stage's own work, on the live objects. */
  method Pass(svc: Service, stage: Stage, r: Request, w: ResponseWriter, ghost lims: set<Limiter>) returns (callNext: bool)
    requires stage.RateLimitStage? ==> stage.limiter in lims
    modifies w, svc.repo, lims
    ensures (World(w, svc.repo, lims), callNext) == Gate(stage, r, old(World(w, svc.repo, lims)))
  {
    match stage
    case CorsStage(allowed) =>
      callNext := HandleCORS(allowed, r, w);
    case LogStage =>
      callNext := true;
    case RateLimitStage(limiter) =>
      callNext := Limit(svc, limiter, r, w, lims);
    case IgnoreStage =>
      callNext := Get(r.header, "X-Ignore-Tracking") != "true";
    case ValidationStage(failStatus) =>
      callNext := Validate(svc, failStatus, r, w, lims);
  }

  /** Calls the endpoint's handler. A handler whose body is not modelled
      leaves the response and the store as `env.unseen` says. */
  method ServeEndpoint(env: Env, e: Endpoint, r: Request, w: ResponseWriter, repo: Repository, ghost lims: set<Limiter>)
    modifies w, repo
    ensures World(w, repo, lims) == Serve(env, e, r, old(World(w, repo, lims)))
  {
    match e
    case TrackUTMEndpoint =>
      TrackUTMHandler(repo, w, r);
    case TrackClickEndpoint =>
      TrackClickHandler(repo, w, r);
    case ServeJSEndpoint =>
      ServeJSHandler(env.generate, repo, w, r);
    case Unseen(name) =>
      var (resp, s) := env.unseen(name, r, w.Value(), repo.store);
      w.status, w.header, w.body, w.aborted := resp.status, resp.header, resp.body, resp.aborted;
      repo.store := s;
  }

  /** handler.ServeHTTP(w, r): each stage does its work and, when it lets
      the request through, calls the next handler. The handlers and the
      service share one repository. */
  method ServeHTTP(env: Env, svc: Service, h: Handler, r: Request, w: ResponseWriter, ghost lims: set<Limiter>)
    requires LimitersOf(h) <= lims
    modifies w, svc.repo, lims
    ensures World(w, svc.repo, lims) == Run(env, h, r, old(World(w, svc.repo, lims)))
    decreases h
  {
    match h
    case Final(e) =>
      ServeEndpoint(env, e, r, w, svc.repo, lims);
    case Wrap(stage, next) =>
      var callNext := Pass(svc, stage, r, w, lims);
      if callNext {
        ServeHTTP(env, svc, next, r, w, lims);
      }
  }
}
