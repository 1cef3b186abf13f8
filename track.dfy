/** The tracking handlers of api/track/handler.go. Each handler is given
    twice: as a function from the request, the response written so far and
    the store to the new response and store (its specification), and as a
    method that runs the same early-return steps against the shared
    Repository object and ResponseWriter, proved to agree with it. */
module Track {
  import opened Http
  import opened Url
  import opened Repo
  import opened Database

  /** TrackUTMRequest */
  datatype UTMEvent = UTMEvent(source: string, medium: string, campaign: string, track: string, pageURL: string)

  /** TrackClickRequest: the element object (JNull for a nil map) and the URL. */
  datatype ClickEvent = ClickEvent(element: Json, url: string)

  /** A JSON member decoded into a Go string field: absent and null leave the
      zero value "", a string is taken, any other value is a type error. */
  function StringField(members: map<string, Json>, name: string): (r: Option<string>)
    ensures name !in members ==> r == Some("")
    ensures name in members ==> (r.Some? <==> members[name].JNull? || members[name].JString?)
    ensures name in members && members[name].JString? ==> r == Some(members[name].s)
  {
    if name !in members then Some("")
    else match members[name]
      case JNull => Some("")
      case JString(v) => Some(v)
      case _ => None
  }

  /** json.NewDecoder(r.Body).Decode(&utmEvent): None is a decode error. A
      top-level null leaves the struct zero; anything but an object or null
      is a type error. */
  function DecodeUTM(b: Body): (r: Option<UTMEvent>)
    ensures b.Malformed? ==> r.None?
    ensures b == Value(JNull) ==> r == Some(UTMEvent("", "", "", "", ""))
  {
    match b
    case Malformed => None
    case Value(JNull) => Some(UTMEvent("", "", "", "", ""))
    case Value(JObject(m)) =>
      var source := StringField(m, "utm_source");
      var medium := StringField(m, "utm_medium");
      var campaign := StringField(m, "utm_campaign");
      var track := StringField(m, "track");
      var pageURL := StringField(m, "page_url");
      if source.None? || medium.None? || campaign.None? || track.None? || pageURL.None? then None
      else Some(UTMEvent(source.value, medium.value, campaign.value, track.value, pageURL.value))
    case Value(_) => None
  }

  /** json.NewDecoder(r.Body).Decode(&clickEvent): "element" decodes into a
      map[string]interface{} (an object, or null for a nil map). */
  function DecodeClick(b: Body): (r: Option<ClickEvent>)
    ensures b.Malformed? ==> r.None?
    ensures b == Value(JNull) ==> r == Some(ClickEvent(JNull, ""))
  {
    match b
    case Malformed => None
    case Value(JNull) => Some(ClickEvent(JNull, ""))
    case Value(JObject(m)) =>
      var element := if "element" in m then m["element"] else JNull;
      var url := StringField(m, "url");
      if !(element.JNull? || element.JObject?) || url.None? then None
      else Some(ClickEvent(element, url.value))
    case Value(_) => None
  }

  /** The domain id the handlers go on with: GetDomain's id, or 0 when it
      fails (its error is dropped). */
  function DomainIdOf(r: Result<int>): int
  {
    if r.Ok? then r.value else 0
  }

  /** Page get-or-create: GetPage, then CreatePage when GetPage found no page
      (id 0). */
  function GetOrCreatePage(s: Store, domainId: int, page: string): (r: (Result<int>, Store))
    ensures GetPage(s, domainId, page).0.Err? ==> r == GetPage(s, domainId, page)
    ensures GetPage(s, domainId, page).0 == Ok(0) ==> r == CreatePage(GetPage(s, domainId, page).1, domainId, page)
    ensures GetPage(s, domainId, page).0.Ok? && GetPage(s, domainId, page).0.value != 0 ==> r == GetPage(s, domainId, page)
    ensures r.1.domains == s.domains && r.1.utms == s.utms && r.1.clicks == s.clicks && r.1.failing == s.failing
    ensures r.1.pages == s.pages || (r.0 == Ok(s.nextPage) && r.1.pages == s.pages + [PageRow(s.nextPage, domainId, page)])
  {
    var (got, s1) := GetPage(s, domainId, page);
    if got.Err? then (got, s1)
    else if got.value == 0 then CreatePage(s1, domainId, page)
    else (got, s1)
  }

  /** A decoded tracking event. */
  datatype Event = UTM(utm: UTMEvent) | Click(click: ClickEvent)

  /** The URL whose page the event belongs to. */
  function PageURL(e: Event): string
  {
    match e
    case UTM(u) => u.pageURL
    case Click(c) => c.url
  }

  /** The call that saves the event on page `pageId`. */
  function SaveCall(pageId: int, e: Event): Call
  {
    match e
    case UTM(u) => SaveUTMCall(pageId, u.source, u.medium, u.campaign, u.track)
    case Click(c) => SaveClickCall(pageId, c.element)
  }

  /** SaveUTM or SaveClick. */
  function Save(s: Store, pageId: int, e: Event): (r: (Result<int>, Store))
    ensures r.0.Err? <==> SaveCall(pageId, e) in s.failing
    ensures r.1.calls == s.calls + [SaveCall(pageId, e)]
    ensures r.1.pages == s.pages && r.1.domains == s.domains && r.1.failing == s.failing
    ensures r.0.Err? ==> r.1.utms == s.utms && r.1.clicks == s.clicks
    ensures r.0.Ok? && e.UTM? ==> |r.1.utms| == |s.utms| + 1 && r.1.clicks == s.clicks
    ensures r.0.Ok? && e.Click? ==> |r.1.clicks| == |s.clicks| + 1 && r.1.utms == s.utms
  {
    match e
    case UTM(u) => SaveUTM(s, pageId, u.source, u.medium, u.campaign, u.track)
    case Click(c) => SaveClick(s, pageId, c.element)
  }

  /** On a valid store, the page id get-or-create returns is the id of the
      first stored page of that domain and URL, and a created page is the
      only new row. */
  lemma {:induction false} GetOrCreateFinds(s: Store, domainId: int, page: string)
    requires Valid(s)
    ensures var (r, s') := GetOrCreatePage(s, domainId, page);
      r.Ok? ==> 0 <= FindPage(s'.pages, domainId, page) && s'.pages[FindPage(s'.pages, domainId, page)].id == r.value
    ensures var (r, s') := GetOrCreatePage(s, domainId, page);
      s'.pages == s.pages || s'.pages == s.pages + [PageRow(s.nextPage, domainId, page)]
  {
    var (got, s1) := GetPage(s, domainId, page);
    if got.Ok? && got.value == 0 {
      assert FindPage(s.pages, domainId, page) == -1;
      if CreatePage(s1, domainId, page).0.Ok? {
        CreateThenGet(s1, domainId, page);
      }
    }
  }

  /** Get-or-create is idempotent: once it has returned an id, running it
      again returns the same id and creates nothing. */
  lemma {:induction false} GetOrCreateTwice(s: Store, domainId: int, page: string)
    requires Valid(s)
    requires GetOrCreatePage(s, domainId, page).0.Ok?
    ensures var (r, s') := GetOrCreatePage(s, domainId, page);
      GetPageCall(domainId, page) !in s.failing ==>
      GetOrCreatePage(s', domainId, page).0 == r && GetOrCreatePage(s', domainId, page).1.pages == s'.pages
  {
    GetOrCreateFinds(s, domainId, page);
    var (r, s') := GetOrCreatePage(s, domainId, page);
    assert Valid(s') by {
      if s'.pages != s.pages {
        CreatedPageIsFresh(GetPage(s, domainId, page).1, domainId, page);
      }
    }
  }

  /** A domain row for `domain` with a non-zero id. */
  predicate Registered(s: Store, domain: string)
  {
    exists j :: 0 <= j < |s.domains| && s.domains[j].domain == domain && s.domains[j].id != 0
  }

  /** The number of events stored, of both kinds. */
  function Events(s: Store): nat
  {
    |s.utms| + |s.clicks|
  }

  /** The steps TrackUTMHandler and TrackClickHandler share, given the result
      of decoding the body. */
  function Track(r: Request, decoded: Option<Event>, resp: Response, s: Store): (out: (Response, Store))
    ensures out.0.status.Some?
    ensures out.0.header == resp.header && out.0.body == resp.body && out.0.aborted == resp.aborted
    ensures out.1.domains == s.domains && out.1.failing == s.failing
    ensures Events(out.1) == Events(s) || Events(out.1) == Events(s) + 1
    ensures resp.status.None? && out.0.status == Some(StatusOK) ==>
      && r.httpMethod == "POST" && decoded.Some? && Get(r.header, "Origin") != ""
      && Registered(s, GetDomainFromOrigin(Get(r.header, "Origin")))
      && Events(out.1) == Events(s) + 1
  {
    if r.httpMethod != "POST" then (StatusWritten(resp, StatusBadRequest), s)
    else if decoded.None? then (StatusWritten(resp, StatusBadRequest), s)
    else
      var origin := Get(r.header, "Origin");
      if origin == "" then (StatusWritten(resp, StatusUnauthorized), s)
      else StoreEvent(resp, s, GetDomainFromOrigin(origin), GetPageFromURL(PageURL(decoded.value)), decoded.value)
  }

  /** What follows the Origin check: the domain lookup, page get-or-create
      on `page`, and the save. */
  function StoreEvent(resp: Response, s: Store, domain: string, page: string, e: Event): (out: (Response, Store))
    ensures out.0.status.Some?
    ensures out.0.header == resp.header && out.0.body == resp.body && out.0.aborted == resp.aborted
    ensures out.1.domains == s.domains && out.1.failing == s.failing
    ensures |out.1.pages| <= |s.pages| + 1
    ensures e.UTM? ==> out.1.clicks == s.clicks && (out.1.utms == s.utms || |out.1.utms| == |s.utms| + 1)
    ensures e.Click? ==> out.1.utms == s.utms && (out.1.clicks == s.clicks || |out.1.clicks| == |s.clicks| + 1)
    ensures resp.status.None? && out.0.status == Some(StatusOK) ==>
      Registered(s, domain) && Events(out.1) == Events(s) + 1
  {
    var (found, s1) := GetDomain(s, domain);
    var domainId := DomainIdOf(found);
    // no return after this write: the steps below still run
    var resp1 := if domainId == 0 then StatusWritten(resp, StatusUnauthorized) else resp;
    var (pageId, s2) := GetOrCreatePage(s1, domainId, page);
    if pageId.Err? then (StatusWritten(resp1, StatusInternalServerError), s2)
    else
      var (saved, s3) := Save(s2, pageId.value, e);
      if saved.Err? then (StatusWritten(resp1, StatusInternalServerError), s3)
      else (StatusWritten(resp1, StatusOK), s3)
  }

  function DecodedUTM(b: Body): Option<Event>
  {
    match DecodeUTM(b)
    case None => None
    case Some(e) => Some(UTM(e))
  }

  function DecodedClick(b: Body): Option<Event>
  {
    match DecodeClick(b)
    case None => None
    case Some(e) => Some(Click(e))
  }

  /** TrackUTMHandler: a status is always written, and a 200 means a UTM
      row was added for a registered domain. */
  function TrackUTM(r: Request, resp: Response, s: Store): (out: (Response, Store))
    ensures out.0.status.Some?
    ensures out.1.domains == s.domains && out.1.clicks == s.clicks
    ensures resp.status.None? && out.0.status == Some(StatusOK) ==>
      Registered(s, GetDomainFromOrigin(Get(r.header, "Origin"))) && |out.1.utms| == |s.utms| + 1
  {
    Track(r, DecodedUTM(r.body), resp, s)
  }

  /** TrackClickHandler: a status is always written, and a 200 means a
      click row was added for a registered domain. */
  function TrackClick(r: Request, resp: Response, s: Store): (out: (Response, Store))
    ensures out.0.status.Some?
    ensures out.1.domains == s.domains && out.1.utms == s.utms
    ensures resp.status.None? && out.0.status == Some(StatusOK) ==>
      Registered(s, GetDomainFromOrigin(Get(r.header, "Origin"))) && |out.1.clicks| == |s.clicks| + 1
  {
    Track(r, DecodedClick(r.body), resp, s)
  }

  const ServePrefix: string := "/serve/js/"

  /** A domain row whose site key is `key`, with a non-zero id. */
  predicate KeyRegistered(s: Store, key: string)
  {
    exists j :: 0 <= j < |s.domains| && s.domains[j].siteKey == key && s.domains[j].id != 0
  }

  /** ServeJSHandler. The key is the path after its first ten bytes; a
      shorter path makes the slice expression panic. `generate` stands for
      GenerateClientJS. */
  function ServeJS(generate: string -> string, r: Request, resp: Response, s: Store): (out: (Response, Store))
    ensures out.0.aborted <==> resp.aborted || |r.path| < |ServePrefix|
    ensures out.1 == s || (|r.path| > |ServePrefix| && out.1 == Record(s, GetDomainIDFromKeyCall(r.path[|ServePrefix|..])))
    ensures out.0.body != resp.body ==>
      && |r.path| > |ServePrefix|
      && KeyRegistered(s, r.path[|ServePrefix|..])
      && out.0.body == resp.body + generate(r.path[|ServePrefix|..])
      && out.0.header == resp.header["Content-Type" := "application/javascript"]
  {
    if |r.path| < |ServePrefix| then (resp.(aborted := true), s)
    else
      var key := r.path[|ServePrefix|..];
      if key == "" then (StatusWritten(resp, StatusBadRequest), s)
      else
        var (found, s1) := GetDomainIDFromKey(s, key);
        if found.Err? then (StatusWritten(resp, StatusInternalServerError), s1)
        else if found.value == 0 then (StatusWritten(resp, StatusUnauthorized), s1)
        else
          var script := generate(key);
          if script == "" then (StatusWritten(resp, StatusInternalServerError), s1)
          else (BodyWritten(HeaderSet(resp, "Content-Type", "application/javascript"), script), s1)
  }

  method TrackUTMHandler(repo: Repository, w: ResponseWriter, r: Request)
    modifies repo, w
    ensures (w.Value(), repo.store) == TrackUTM(r, old(w.Value()), old(repo.store))
  {
    if r.httpMethod != "POST" {
      w.WriteHeader(StatusBadRequest);
      return;
    }
    var utmEvent := DecodeUTM(r.body);
    if utmEvent.None? {
      w.WriteHeader(StatusBadRequest);
      return;
    }
    var origin := Get(r.header, "Origin");
    if origin == "" {
      w.WriteHeader(StatusUnauthorized);
      return;
    }
    var domain := GetDomainFromOrigin(origin);
    assert TrackUTM(r, old(w.Value()), old(repo.store)) ==
      StoreEvent(w.Value(), repo.store, domain, GetPageFromURL(utmEvent.value.pageURL), UTM(utmEvent.value));
    var found := repo.GetDomain(domain);
    var domainId := DomainIdOf(found);
    if domainId == 0 {
      w.WriteHeader(StatusUnauthorized);
    }
    var page := GetPageFromURL(utmEvent.value.pageURL);
    var pageId := repo.GetPage(domainId, page);
    if pageId.Err? {
      w.WriteHeader(StatusInternalServerError);
      return;
    }
    if pageId.value == 0 {
      pageId := repo.CreatePage(domainId, page);
      if pageId.Err? {
        w.WriteHeader(StatusInternalServerError);
        return;
      }
    }
    var e := utmEvent.value;
    var saved := repo.SaveUTM(pageId.value, e.source, e.medium, e.campaign, e.track);
    if saved.Err? {
      w.WriteHeader(StatusInternalServerError);
      return;
    }
    w.WriteHeader(StatusOK);
  }

  method TrackClickHandler(repo: Repository, w: ResponseWriter, r: Request)
    modifies repo, w
    ensures (w.Value(), repo.store) == TrackClick(r, old(w.Value()), old(repo.store))
  {
    if r.httpMethod != "POST" {
      w.WriteHeader(StatusBadRequest);
      return;
    }
    var clickEvent := DecodeClick(r.body);
    if clickEvent.None? {
      w.WriteHeader(StatusBadRequest);
      return;
    }
    var origin := Get(r.header, "Origin");
    if origin == "" {
      w.WriteHeader(StatusUnauthorized);
      return;
    }
    var domain := GetDomainFromOrigin(origin);
    assert TrackClick(r, old(w.Value()), old(repo.store)) ==
      StoreEvent(w.Value(), repo.store, domain, GetPageFromURL(clickEvent.value.url), Click(clickEvent.value));
    var found := repo.GetDomain(domain);
    var domainId := DomainIdOf(found);
    if domainId == 0 {
      w.WriteHeader(StatusUnauthorized);
    }
    var page := GetPageFromURL(clickEvent.value.url);
    var pageId := repo.GetPage(domainId, page);
    if pageId.Err? {
      w.WriteHeader(StatusInternalServerError);
      return;
    }
    if pageId.value == 0 {
      pageId := repo.CreatePage(domainId, page);
      if pageId.Err? {
        w.WriteHeader(StatusInternalServerError);
        return;
      }
    }
    var saved := repo.SaveClick(pageId.value, clickEvent.value.element);
    if saved.Err? {
      w.WriteHeader(StatusInternalServerError);
      return;
    }
    w.WriteHeader(StatusOK);
  }

  method ServeJSHandler(generate: string -> string, repo: Repository, w: ResponseWriter, r: Request)
    modifies repo, w
    ensures (w.Value(), repo.store) == ServeJS(generate, r, old(w.Value()), old(repo.store))
  {
    if |r.path| < |ServePrefix| {
      w.Abort();
      return;
    }
    var clientKey := r.path[|ServePrefix|..];
    if clientKey == "" {
      w.WriteHeader(StatusBadRequest);
      return;
    }
    var domainId := repo.GetDomainIDFromKey(clientKey);
    if domainId.Err? {
      w.WriteHeader(StatusInternalServerError);
      return;
    }
    if domainId.value == 0 {
      w.WriteHeader(StatusUnauthorized);
      return;
    }
    var script := generate(clientKey);
    if script == "" {
      w.WriteHeader(StatusInternalServerError);
      return;
    }
    w.Set("Content-Type", "application/javascript");
    w.Write(script);
  }

  /** The domain the handlers look up: the host of the Origin header. */
  function Domain(r: Request): string
  {
    GetDomainFromOrigin(Get(r.header, "Origin"))
  }

  /** The method and the body are checked first: a non-POST request or an
      undecodable body gets 400 whatever its headers, and the repository is
      not called. */
  lemma ChecksFirst(r: Request, decoded: Option<Event>, resp: Response, s: Store)
    requires r.httpMethod != "POST" || decoded.None?
    ensures Track(r, decoded, resp, s) == (StatusWritten(resp, StatusBadRequest), s)
  {
  }

  /** A missing Origin gets 401, with no repository call. */
  lemma MissingOrigin(r: Request, e: Event, resp: Response, s: Store)
    requires r.httpMethod == "POST" && Get(r.header, "Origin") == ""
    ensures Track(r, Some(e), resp, s) == (StatusWritten(resp, StatusUnauthorized), s)
  {
  }

  /** Past the method, body and Origin checks, a handler runs StoreEvent on
      the Origin's domain and the page of the event's URL. */
  lemma PastChecks(r: Request, e: Event, resp: Response, s: Store)
    requires r.httpMethod == "POST" && Get(r.header, "Origin") != ""
    ensures Track(r, Some(e), resp, s) == StoreEvent(resp, s, Domain(r), GetPageFromURL(PageURL(e)), e)
  {
  }

  /** An unknown domain writes 401 but does not return: the page is still
      looked up, with domain id 0, and the client sees the 401 whatever the
      later steps write. */
  lemma {:induction false} UnknownDomainGoesOn(resp: Response, s: Store, domain: string, page: string, e: Event)
    requires GetDomain(s, domain).0.Err?
    requires resp.status.None?
    ensures StoreEvent(resp, s, domain, page, e).0.status == Some(StatusUnauthorized)
    ensures var calls := StoreEvent(resp, s, domain, page, e).1.calls;
      |calls| >= |s.calls| + 2 && calls[|s.calls|] == GetDomainCall(domain) && calls[|s.calls| + 1] == GetPageCall(0, page)
  {
    var s1 := GetDomain(s, domain).1;
    var s1' := GetPage(s1, 0, page).1;
    var (pageId, s2) := GetOrCreatePage(s1, 0, page);
    assert s2.calls[..|s1'.calls|] == s1'.calls;
    var out := StoreEvent(resp, s, domain, page, e);
    assert out.1 == if pageId.Err? then s2 else Save(s2, pageId.value, e).1;
    assert out.1.calls[..|s2.calls|] == s2.calls;
    assert out.1.calls[..|s1'.calls|] == s1'.calls;
  }

  /** The rest of the missing return: with an unknown domain and no page
      of domain id 0 for the URL, the page is created under domain id 0 and
      the event is saved on it, while the client still gets 401. */
  lemma {:induction false} UnknownDomainNewPage(resp: Response, s: Store, domain: string, page: string, e: Event)
    requires DomainIdOf(GetDomain(s, domain).0) == 0
    requires resp.status.None?
    requires GetPage(GetDomain(s, domain).1, 0, page).0 == Ok(0)
    requires CreatePageCall(0, page) !in s.failing
    requires SaveCall(s.nextPage, e) !in s.failing
    ensures var out := StoreEvent(resp, s, domain, page, e);
      && out.0.status == Some(StatusUnauthorized)
      && out.1.pages == s.pages + [PageRow(s.nextPage, 0, page)]
      && Events(out.1) == Events(s) + 1
      && out.1.calls == s.calls + [GetDomainCall(domain), GetPageCall(0, page), CreatePageCall(0, page), SaveCall(s.nextPage, e)]
  {
    var s1 := GetDomain(s, domain).1;
    var s1' := GetPage(s1, 0, page).1;
    var (pageId, s2) := GetOrCreatePage(s1, 0, page);
    assert pageId == Ok(s.nextPage) && s2 == CreatePage(s1', 0, page).1;
    var out := StoreEvent(resp, s, domain, page, e);
    assert out.1 == Save(s2, s.nextPage, e).1;
  }

  /** With an unknown domain and a page already stored under domain id 0
      (as an earlier unknown-domain request leaves one), that page's id
      goes to the save, and the client still gets 401. */
  lemma {:induction false} UnknownDomainExistingPage(resp: Response, s: Store, domain: string, page: string, e: Event, pageId: int)
    requires DomainIdOf(GetDomain(s, domain).0) == 0
    requires resp.status.None?
    requires GetPage(GetDomain(s, domain).1, 0, page).0 == Ok(pageId) && pageId != 0
    requires SaveCall(pageId, e) !in s.failing
    ensures var out := StoreEvent(resp, s, domain, page, e);
      && out.0.status == Some(StatusUnauthorized)
      && out.1.pages == s.pages
      && Events(out.1) == Events(s) + 1
      && out.1.calls == s.calls + [GetDomainCall(domain), GetPageCall(0, page), SaveCall(pageId, e)]
  {
    var s1 := GetDomain(s, domain).1;
    var (got, s2) := GetOrCreatePage(s1, 0, page);
    assert got == Ok(pageId) && s2 == GetPage(s1, 0, page).1;
    var out := StoreEvent(resp, s, domain, page, e);
    assert out.1 == Save(s2, pageId, e).1;
  }

  /** A known domain and an existing page: no page is created, the page's id
      goes to the save, and the client gets 200. */
  lemma ExistingPage(resp: Response, s: Store, domain: string, page: string, e: Event, domainId: int, pageId: int)
    requires resp.status.None?
    requires GetDomain(s, domain).0 == Ok(domainId) && domainId != 0
    requires GetPage(s, domainId, page).0 == Ok(pageId) && pageId != 0
    requires SaveCall(pageId, e) !in s.failing
    ensures StoreEvent(resp, s, domain, page, e).0.status == Some(StatusOK)
    ensures StoreEvent(resp, s, domain, page, e).1.calls ==
      s.calls + [GetDomainCall(domain), GetPageCall(domainId, page), SaveCall(pageId, e)]
    ensures StoreEvent(resp, s, domain, page, e).1.pages == s.pages
  {
  }

  /** A known domain and a page not stored yet: CreatePage is called once,
      and the id it returns goes to the save. */
  lemma NewPage(resp: Response, s: Store, domain: string, page: string, e: Event, domainId: int)
    requires resp.status.None?
    requires GetDomain(s, domain).0 == Ok(domainId) && domainId != 0
    requires GetPage(s, domainId, page).0 == Ok(0)
    requires CreatePageCall(domainId, page) !in s.failing
    requires SaveCall(s.nextPage, e) !in s.failing
    ensures StoreEvent(resp, s, domain, page, e).0.status == Some(StatusOK)
    ensures StoreEvent(resp, s, domain, page, e).1.calls ==
      s.calls + [GetDomainCall(domain), GetPageCall(domainId, page), CreatePageCall(domainId, page), SaveCall(s.nextPage, e)]
    ensures StoreEvent(resp, s, domain, page, e).1.pages == s.pages + [PageRow(s.nextPage, domainId, page)]
  {
  }

  /** A failing GetPage, CreatePage or save answers 500, and no repository
      call follows it. */
  lemma ErrorsStop(resp: Response, s: Store, domain: string, page: string, e: Event, domainId: int)
    requires resp.status.None?
    requires GetDomain(s, domain).0 == Ok(domainId) && domainId != 0
    ensures GetPageCall(domainId, page) in s.failing ==>
      var out := StoreEvent(resp, s, domain, page, e);
      out.0.status == Some(StatusInternalServerError) &&
      out.1.calls == s.calls + [GetDomainCall(domain), GetPageCall(domainId, page)]
    ensures GetPage(s, domainId, page).0 == Ok(0) && CreatePageCall(domainId, page) in s.failing ==>
      var out := StoreEvent(resp, s, domain, page, e);
      out.0.status == Some(StatusInternalServerError) &&
      out.1.calls == s.calls + [GetDomainCall(domain), GetPageCall(domainId, page), CreatePageCall(domainId, page)]
    ensures var got := GetOrCreatePage(GetDomain(s, domain).1, domainId, page);
      got.0.Ok? && SaveCall(got.0.value, e) in s.failing ==>
      var out := StoreEvent(resp, s, domain, page, e);
      out.0.status == Some(StatusInternalServerError) && out.1.calls == got.1.calls + [SaveCall(got.0.value, e)]
  {
  }

  /** ServeJSHandler's outcomes on a path that starts past the prefix: an
      empty key is 400 without a lookup; a failing lookup is 500; an unknown
      key is 401; a known key serves the generated script as JavaScript, or
      500 when none was generated. The lookup is its only repository call. */
  lemma ServeJSOutcomes(generate: string -> string, r: Request, resp: Response, s: Store)
    requires |r.path| >= |ServePrefix| && resp.status.None?
    ensures var key := r.path[|ServePrefix|..];
      var out := ServeJS(generate, r, resp, s);
      && (key == "" ==> out == (StatusWritten(resp, StatusBadRequest), s))
      && (key != "" ==> out.1 == Record(s, GetDomainIDFromKeyCall(key)))
      && (key != "" && GetDomainIDFromKeyCall(key) in s.failing ==> out.0.status == Some(StatusInternalServerError))
      && (key != "" && GetDomainIDFromKey(s, key).0 == Ok(0) ==> out.0.status == Some(StatusUnauthorized))
      && (key != "" && GetDomainIDFromKey(s, key).0.Ok? && GetDomainIDFromKey(s, key).0.value != 0 ==>
            if generate(key) == "" then out.0.status == Some(StatusInternalServerError)
            else out.0.status == Some(StatusOK) && out.0.body == resp.body + generate(key) &&
                 out.0.header == resp.header["Content-Type" := "application/javascript"])
  {
  }

  /** A path shorter than the prefix: the slice panics and nothing is
      written. */
  lemma ShortPathPanics(generate: string -> string, r: Request, resp: Response, s: Store)
    requires |r.path| < |ServePrefix|
    ensures ServeJS(generate, r, resp, s) == (resp.(aborted := true), s)
  {
  }
}
