/** The older middleware package api/router/middleware. Nothing imports it;
    its HandleMiddleware, LogRequest and getDomainFromOrigin are the same
    code as in api/middleware (Middleware.HandleMiddleware,
    Middleware.LogRequest, Url.GetDomainFromOrigin), and its DomainValidation
    makes the same checks but answers 400 Bad Request on refusal. */
module Legacy {
  import opened Http
  import opened Repo
  import opened Service
  import opened Url
  import opened Middleware

  /** DomainValidation(next) of the older package: refuses with 400. */
  function DomainValidation(next: Handler): Handler
  {
    Wrap(ValidationStage(StatusBadRequest), next)
  }

  /** A missing Origin gets 400 "Missing Origin header" before X-Site-Key
      is looked at; a missing X-Site-Key gets 400 with no service call. */
  lemma MissingHeaders(env: Env, next: Handler, r: Request, st: State)
    requires LimitersOf(next) <= st.tokens.Keys
    ensures Get(r.header, "Origin") == "" ==>
      Run(env, DomainValidation(next), r, st) == st.(resp := ErrorWritten(st.resp, "Missing Origin header", StatusBadRequest))
    ensures Get(r.header, "Origin") != "" && Get(r.header, "X-Site-Key") == "" ==>
      Run(env, DomainValidation(next), r, st) == st.(resp := ErrorWritten(st.resp, "Missing X-Site-Key header", StatusBadRequest))
  {
  }

  /** With both headers, an invalid pair gets 400 "Invalid domain key pair"
      and next is not called; a valid one calls next on the store the
      lookup left. */
  lemma ValidatorDecides(r: Request, st: State, ok: bool, s': Store)
    requires Get(r.header, "Origin") != "" && Get(r.header, "X-Site-Key") != ""
    requires (ok, s') == Validated(st.store, GetDomainFromOrigin(Get(r.header, "Origin")), Get(r.header, "X-Site-Key"))
    ensures Gate(ValidationStage(StatusBadRequest), r, st) ==
      if ok then (st.(store := s'), true)
      else (st.(resp := ErrorWritten(st.resp, "Invalid domain key pair", StatusBadRequest), store := s'), false)
  {
    ValidationDecides(StatusBadRequest, r, st, ok, s');
  }

  /** The two validations let the same requests through, leave the same
      store, headers and body, and differ only in the status of a refusal:
      400 here, 401 in the live package. */
  lemma OnlyStatusDiffers(r: Request, st: State)
    ensures var (a, passA) := Validation(StatusBadRequest, r, st);
            var (b, passB) := Validation(StatusUnauthorized, r, st);
      && passA == passB
      && a.store == b.store && a.tokens == b.tokens
      && a.resp.header == b.resp.header && a.resp.body == b.resp.body && a.resp.aborted == b.resp.aborted
      && (passA || st.resp.status.Some? ==> a.resp.status == b.resp.status)
      && (!passA && st.resp.status.None? ==> a.resp.status == Some(StatusBadRequest) && b.resp.status == Some(StatusUnauthorized))
  {
  }
}
