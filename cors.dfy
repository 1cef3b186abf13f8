/** The CORS gate of api/router/router.go (handleCORS): the Referer header,
    with one trailing '/' removed, must equal an entry of the allow-list.
    The headers it sets are the response headers of the CORS protocol
    (section 3.2 of the WHATWG Fetch Standard). */
module Cors {
  import opened Http

  const AllowMethods: string := "GET, POST, OPTIONS"
  const AllowHeaders: string := "Content-Type, X-Site-Key, Origin"

  /** The referer with one trailing '/' removed, if it has one. */
  function Trimmed(referrer: string): (t: string)
    requires referrer != ""
    ensures referrer == t + "/" || referrer == t
    ensures referrer == t <==> referrer[|referrer| - 1] != '/'
  {
    if referrer[|referrer| - 1] == '/' then referrer[..|referrer| - 1] else referrer
  }

  /** Whether the gate lets this referer through: it is not empty, and
      trimmed it equals some entry exactly. */
  predicate Allowed(allowed: seq<string>, referrer: string)
  {
    referrer != "" && Trimmed(referrer) in allowed
  }

  /** What handleCORS writes before it would call the next handler, and
      whether it calls it. */
  function Decide(allowed: seq<string>, r: Request, resp: Response): (out: (Response, bool))
  {
    var referrer := Get(r.header, "Referer");
    if referrer == "" then (ErrorWritten(resp, "Missing Referer header", StatusUnauthorized), false)
    else
      var origin := Trimmed(referrer);
      var originAllowed := origin in allowed;
      var resp1 :=
        if r.httpMethod == "OPTIONS" then
          HeaderSet(HeaderSet(resp, "Access-Control-Allow-Methods", AllowMethods), "Access-Control-Allow-Headers", AllowHeaders)
        else resp;
      if r.httpMethod == "OPTIONS" && originAllowed then
        (StatusWritten(HeaderSet(resp1, "Access-Control-Allow-Origin", origin), StatusOK), false)
      else if originAllowed then (HeaderSet(resp1, "Access-Control-Allow-Origin", origin), true)
      else (ErrorWritten(resp1, "Origin not allowed", StatusUnauthorized), false)
  }

  /** The body of the closure handleCORS returns, up to the call of next:
      it trims the referer in place, searches the allow-list with a flag
      and a break, and sets the response headers one by one. */
  method HandleCORS(allowed: seq<string>, r: Request, w: ResponseWriter) returns (callNext: bool)
    modifies w
    ensures (w.Value(), callNext) == Decide(allowed, r, old(w.Value()))
  {
    var referrer := Get(r.header, "Referer");
    if referrer == "" {
      Error(w, "Missing Referer header", StatusUnauthorized);
      return false;
    }
    if referrer[|referrer| - 1] == '/' {
      referrer := referrer[..|referrer| - 1];
    }

    var originAllowed := false;
    var i := 0;
    while i < |allowed|
      invariant 0 <= i <= |allowed|
      invariant !originAllowed
      invariant forall j :: 0 <= j < i ==> allowed[j] != referrer
    {
      if referrer == allowed[i] {
        originAllowed := true;
        break;
      }
      i := i + 1;
    }
    assert originAllowed <==> referrer in allowed;

    if r.httpMethod == "OPTIONS" {
      w.Set("Access-Control-Allow-Methods", AllowMethods);
      w.Set("Access-Control-Allow-Headers", AllowHeaders);
      if originAllowed {
        w.Set("Access-Control-Allow-Origin", referrer);
        w.WriteHeader(StatusOK);
        return false;
      }
    }

    if originAllowed {
      w.Set("Access-Control-Allow-Origin", referrer);
    } else {
      Error(w, "Origin not allowed", StatusUnauthorized);
      return false;
    }
    return true;
  }

  /** A request without a Referer gets 401 "Missing Referer header", no
      CORS header, and the next handler does not run. */
  lemma MissingReferer(allowed: seq<string>, r: Request, resp: Response)
    requires Get(r.header, "Referer") == ""
    ensures var (resp', callNext) := Decide(allowed, r, resp);
      && !callNext
      && resp' == ErrorWritten(resp, "Missing Referer header", StatusUnauthorized)
      && resp'.header.Keys == resp.header.Keys + {"Content-Type", "X-Content-Type-Options"}
  {
  }

  /** The next handler runs exactly when the request is not a preflight and
      the trimmed referer is in the allow-list. */
  lemma CallsNextIff(allowed: seq<string>, r: Request, resp: Response)
    ensures Decide(allowed, r, resp).1 <==> r.httpMethod != "OPTIONS" && Allowed(allowed, Get(r.header, "Referer"))
  {
  }

  /** A preflight from an allowed origin gets 200 and the three CORS
      headers, and goes no further. */
  lemma Preflight(allowed: seq<string>, r: Request, resp: Response)
    requires r.httpMethod == "OPTIONS" && Allowed(allowed, Get(r.header, "Referer"))
    ensures var (resp', callNext) := Decide(allowed, r, resp);
      && !callNext
      && resp'.status == (if resp.status.Some? then resp.status else Some(StatusOK))
      && resp'.header == resp.header["Access-Control-Allow-Methods" := AllowMethods]
                                    ["Access-Control-Allow-Headers" := AllowHeaders]
                                    ["Access-Control-Allow-Origin" := Trimmed(Get(r.header, "Referer"))]
  {
  }

  /** Any other request from an allowed origin gets only the Allow-Origin
      header, set to the trimmed referer, and then the next handler. */
  lemma AllowedRequest(allowed: seq<string>, r: Request, resp: Response)
    requires r.httpMethod != "OPTIONS" && Allowed(allowed, Get(r.header, "Referer"))
    ensures Decide(allowed, r, resp) ==
      (HeaderSet(resp, "Access-Control-Allow-Origin", Trimmed(Get(r.header, "Referer"))), true)
  {
  }

  /** An origin outside the allow-list gets 401 "Origin not allowed" for
      every method, never reaches the next handler, and never gets an
      Allow-Origin header; a preflight has its two headers set first. */
  lemma Rejected(allowed: seq<string>, r: Request, resp: Response)
    requires Get(r.header, "Referer") != "" && !Allowed(allowed, Get(r.header, "Referer"))
    ensures var (resp', callNext) := Decide(allowed, r, resp);
      && !callNext
      && resp'.status == (if resp.status.Some? then resp.status else Some(StatusUnauthorized))
      && resp'.body == resp.body + "Origin not allowed\n"
      && ("Access-Control-Allow-Origin" in resp'.header <==> "Access-Control-Allow-Origin" in resp.header)
      && (r.httpMethod == "OPTIONS" ==>
            resp'.header["Access-Control-Allow-Methods"] == AllowMethods
            && resp'.header["Access-Control-Allow-Headers"] == AllowHeaders)
  {
  }

  /** Only one '/' is removed: "a//" trims to "a/", and a referer is
      allowed exactly when it, or it without its last '/', is an entry. */
  lemma TrimsOneSlash(allowed: seq<string>, referrer: string)
    requires referrer != ""
    ensures Allowed(allowed, referrer) <==>
      if referrer[|referrer| - 1] == '/' then referrer[..|referrer| - 1] in allowed else referrer in allowed
    ensures |referrer| >= 2 && referrer[|referrer| - 2..] == "//" ==> Trimmed(referrer)[|referrer| - 2] == '/'
  {
  }

  /** A referer of "/" trims to "" and is admitted exactly when the
      allow-list holds the empty string. */
  lemma SlashReferer(allowed: seq<string>)
    ensures Allowed(allowed, "/") <==> "" in allowed
  {
    assert Trimmed("/") == "";
  }
}
