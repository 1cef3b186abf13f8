/** The tracking repository (api/track/repository.go) as an abstract store:
    the rows of the tables the core reads and writes, the auto-increment
    counters behind LastInsertId, the set of calls on which the database
    fails, and the log of every call made, as the tests' mock repository
    records them. Queries return the first matching row. */
module Repo {
  import opened Http

  /** sql.ErrNoRows, or any other database failure. */
  datatype Error = NoRows | DbError

  datatype Result<T> = Ok(value: T) | Err(error: Error)

  datatype DomainRow = DomainRow(id: int, domain: string, siteKey: string)
  datatype PageRow = PageRow(id: int, domainId: int, url: string)
  datatype UTMRow = UTMRow(id: int, pageId: int, source: string, medium: string, campaign: string, track: string)
  datatype ClickRow = ClickRow(id: int, pageId: int, element: Json)

  /** The DomainKeyPair struct GetDomainKeyPair scans into. */
  datatype DomainKeyPair = DomainKeyPair(domain: string, siteKey: string)

  /** One call on the repository, with its arguments. */
  datatype Call =
    | GetDomainCall(domain: string)
    | GetDomainIDFromKeyCall(key: string)
    | GetDomainKeyPairCall(domain: string)
    | GetPageCall(domainId: int, url: string)
    | CreatePageCall(domainId: int, url: string)
    | SaveUTMCall(pageId: int, source: string, medium: string, campaign: string, track: string)
    | SaveClickCall(pageId: int, element: Json)

  datatype Store = Store(
    domains: seq<DomainRow>,
    pages: seq<PageRow>,
    utms: seq<UTMRow>,
    clicks: seq<ClickRow>,
    nextPage: int,
    nextUTM: int,
    nextClick: int,
    failing: set<Call>,
    calls: seq<Call>)

  /** Ids are positive, and each counter is above every id in its table. */
  predicate Valid(s: Store)
  {
    && 0 < s.nextPage && 0 < s.nextUTM && 0 < s.nextClick
    && (forall i :: 0 <= i < |s.pages| ==> 0 < s.pages[i].id < s.nextPage)
    && (forall i :: 0 <= i < |s.utms| ==> 0 < s.utms[i].id < s.nextUTM)
    && (forall i :: 0 <= i < |s.clicks| ==> 0 < s.clicks[i].id < s.nextClick)
  }

  /** The store after `c` has been made. */
  function Record(s: Store, c: Call): Store
  {
    s.(calls := s.calls + [c])
  }

  /** The first row for `domain`, or -1. */
  function FindDomain(rows: seq<DomainRow>, domain: string): (i: int)
    ensures -1 <= i < |rows|
    ensures 0 <= i ==> rows[i].domain == domain
    ensures forall j :: 0 <= j < |rows| && (i == -1 || j < i) ==> rows[j].domain != domain
  {
    if rows == [] then -1
    else if rows[0].domain == domain then 0
    else
      var k := FindDomain(rows[1..], domain);
      if k == -1 then -1 else k + 1
  }

  /** The first row whose site key is `key`, or -1. */
  function FindKey(rows: seq<DomainRow>, key: string): (i: int)
    ensures -1 <= i < |rows|
    ensures 0 <= i ==> rows[i].siteKey == key
    ensures forall j :: 0 <= j < |rows| && (i == -1 || j < i) ==> rows[j].siteKey != key
  {
    if rows == [] then -1
    else if rows[0].siteKey == key then 0
    else
      var k := FindKey(rows[1..], key);
      if k == -1 then -1 else k + 1
  }

  /** The first page row of `domainId` with `url`, or -1. */
  function FindPage(rows: seq<PageRow>, domainId: int, url: string): (i: int)
    ensures -1 <= i < |rows|
    ensures 0 <= i ==> rows[i].domainId == domainId && rows[i].url == url
    ensures forall j :: 0 <= j < |rows| && (i == -1 || j < i) ==> !(rows[j].domainId == domainId && rows[j].url == url)
  {
    if rows == [] then -1
    else if rows[0].domainId == domainId && rows[0].url == url then 0
    else
      var k := FindPage(rows[1..], domainId, url);
      if k == -1 then -1 else k + 1
  }

  /** GetDomain: the domain's id; no row is an error, like any failure. */
  function GetDomain(s: Store, domain: string): (r: (Result<int>, Store))
    ensures r.1 == Record(s, GetDomainCall(domain))
    ensures r.0.Err? <==> GetDomainCall(domain) in s.failing || forall j :: 0 <= j < |s.domains| ==> s.domains[j].domain != domain
    ensures r.0 == Err(NoRows) <==> GetDomainCall(domain) !in s.failing && forall j :: 0 <= j < |s.domains| ==> s.domains[j].domain != domain
    ensures r.0.Ok? ==> exists j :: 0 <= j < |s.domains| && s.domains[j].domain == domain && s.domains[j].id == r.0.value
  {
    var c := GetDomainCall(domain);
    if c in s.failing then (Err(DbError), Record(s, c))
    else
      var i := FindDomain(s.domains, domain);
      if i < 0 then (Err(NoRows), Record(s, c)) else (Ok(s.domains[i].id), Record(s, c))
  }

  /** GetDomainIDFromKey: no row is not an error but the id 0. */
  function GetDomainIDFromKey(s: Store, key: string): (r: (Result<int>, Store))
    ensures r.1 == Record(s, GetDomainIDFromKeyCall(key))
    ensures r.0.Err? <==> GetDomainIDFromKeyCall(key) in s.failing
    ensures r.0.Err? ==> r.0.error == DbError
    ensures r.0.Ok? && (forall j :: 0 <= j < |s.domains| ==> s.domains[j].siteKey != key) ==> r.0.value == 0
    ensures r.0.Ok? && (exists j :: 0 <= j < |s.domains| && s.domains[j].siteKey == key) ==>
      exists j :: 0 <= j < |s.domains| && s.domains[j].siteKey == key && s.domains[j].id == r.0.value
  {
    var c := GetDomainIDFromKeyCall(key);
    if c in s.failing then (Err(DbError), Record(s, c))
    else
      var i := FindKey(s.domains, key);
      if i < 0 then (Ok(0), Record(s, c)) else (Ok(s.domains[i].id), Record(s, c))
  }

  /** GetDomainKeyPair: no row is sql.ErrNoRows. */
  function GetDomainKeyPair(s: Store, domain: string): (r: (Result<DomainKeyPair>, Store))
    ensures r.1 == Record(s, GetDomainKeyPairCall(domain))
    ensures r.0 == Err(NoRows) <==> GetDomainKeyPairCall(domain) !in s.failing && forall j :: 0 <= j < |s.domains| ==> s.domains[j].domain != domain
    ensures r.0 == Err(DbError) <==> GetDomainKeyPairCall(domain) in s.failing
    ensures r.0.Ok? ==> exists j :: 0 <= j < |s.domains| && s.domains[j].domain == domain && r.0.value == DomainKeyPair(domain, s.domains[j].siteKey)
  {
    var c := GetDomainKeyPairCall(domain);
    if c in s.failing then (Err(DbError), Record(s, c))
    else
      var i := FindDomain(s.domains, domain);
      if i < 0 then (Err(NoRows), Record(s, c))
      else (Ok(DomainKeyPair(s.domains[i].domain, s.domains[i].siteKey)), Record(s, c))
  }

  /** GetPage: the page's id, or 0 when the domain has no such page. */
  function GetPage(s: Store, domainId: int, url: string): (r: (Result<int>, Store))
    ensures r.1 == Record(s, GetPageCall(domainId, url))
    ensures r.0.Err? <==> GetPageCall(domainId, url) in s.failing
    ensures r.0.Err? ==> r.0.error == DbError
    ensures r.0.Ok? && (forall j :: 0 <= j < |s.pages| ==> !(s.pages[j].domainId == domainId && s.pages[j].url == url)) ==> r.0.value == 0
    ensures r.0.Ok? && (exists j :: 0 <= j < |s.pages| && s.pages[j].domainId == domainId && s.pages[j].url == url) ==>
      exists j :: 0 <= j < |s.pages| && s.pages[j].domainId == domainId && s.pages[j].url == url && s.pages[j].id == r.0.value
    ensures r.0.Ok? && Valid(s) ==> (r.0.value == 0 <==> forall j :: 0 <= j < |s.pages| ==> !(s.pages[j].domainId == domainId && s.pages[j].url == url))
  {
    var c := GetPageCall(domainId, url);
    if c in s.failing then (Err(DbError), Record(s, c))
    else
      var i := FindPage(s.pages, domainId, url);
      if i < 0 then (Ok(0), Record(s, c)) else (Ok(s.pages[i].id), Record(s, c))
  }

  /** CreatePage: inserts a page row and returns its new id. */
  function CreatePage(s: Store, domainId: int, url: string): (r: (Result<int>, Store))
    ensures r.0.Err? <==> CreatePageCall(domainId, url) in s.failing
    ensures r.0.Err? ==> r.0.error == DbError && r.1 == Record(s, CreatePageCall(domainId, url))
    ensures r.0.Ok? ==> r.0.value == s.nextPage && r.1 == Record(s, CreatePageCall(domainId, url)).(
      pages := s.pages + [PageRow(s.nextPage, domainId, url)], nextPage := s.nextPage + 1)
  {
    var c := CreatePageCall(domainId, url);
    if c in s.failing then (Err(DbError), Record(s, c))
    else (Ok(s.nextPage), Record(s, c).(pages := s.pages + [PageRow(s.nextPage, domainId, url)], nextPage := s.nextPage + 1))
  }

  /** SaveUTM: inserts a UTM row and returns its new id. */
  function SaveUTM(s: Store, pageId: int, source: string, medium: string, campaign: string, track: string): (r: (Result<int>, Store))
    ensures r.0.Err? <==> SaveUTMCall(pageId, source, medium, campaign, track) in s.failing
    ensures r.0.Err? ==> r.0.error == DbError && r.1 == Record(s, SaveUTMCall(pageId, source, medium, campaign, track))
    ensures r.0.Ok? ==> r.0.value == s.nextUTM && r.1 == Record(s, SaveUTMCall(pageId, source, medium, campaign, track)).(
      utms := s.utms + [UTMRow(s.nextUTM, pageId, source, medium, campaign, track)], nextUTM := s.nextUTM + 1)
  {
    var c := SaveUTMCall(pageId, source, medium, campaign, track);
    if c in s.failing then (Err(DbError), Record(s, c))
    else (Ok(s.nextUTM), Record(s, c).(utms := s.utms + [UTMRow(s.nextUTM, pageId, source, medium, campaign, track)], nextUTM := s.nextUTM + 1))
  }

  /** SaveClick: inserts a click row and returns its new id. json.Marshal
      cannot fail on a decoded JSON value, so only the insert can. */
  function SaveClick(s: Store, pageId: int, element: Json): (r: (Result<int>, Store))
    ensures r.0.Err? <==> SaveClickCall(pageId, element) in s.failing
    ensures r.0.Err? ==> r.0.error == DbError && r.1 == Record(s, SaveClickCall(pageId, element))
    ensures r.0.Ok? ==> r.0.value == s.nextClick && r.1 == Record(s, SaveClickCall(pageId, element)).(
      clicks := s.clicks + [ClickRow(s.nextClick, pageId, element)], nextClick := s.nextClick + 1)
  {
    var c := SaveClickCall(pageId, element);
    if c in s.failing then (Err(DbError), Record(s, c))
    else (Ok(s.nextClick), Record(s, c).(clicks := s.clicks + [ClickRow(s.nextClick, pageId, element)], nextClick := s.nextClick + 1))
  }

  /** CreatePage returns a fresh positive id and keeps the store valid. */
  lemma CreatedPageIsFresh(s: Store, domainId: int, url: string)
    requires Valid(s)
    ensures Valid(CreatePage(s, domainId, url).1)
    ensures CreatePage(s, domainId, url).0.Ok? ==>
      CreatePage(s, domainId, url).0.value > 0 &&
      forall j :: 0 <= j < |s.pages| ==> s.pages[j].id != CreatePage(s, domainId, url).0.value
  {
    var s' := CreatePage(s, domainId, url).1;
    assert forall j :: 0 <= j < |s.pages| ==> s'.pages[j] == s.pages[j];
  }

  /** After GetPage found no page and CreatePage succeeded, GetPage finds
      the created page. */
  lemma {:induction false} CreateThenGet(s: Store, domainId: int, url: string)
    requires FindPage(s.pages, domainId, url) == -1
    requires CreatePage(s, domainId, url).0.Ok?
    requires GetPageCall(domainId, url) !in s.failing
    ensures GetPage(CreatePage(s, domainId, url).1, domainId, url).0 == Ok(CreatePage(s, domainId, url).0.value)
  {
    var s' := CreatePage(s, domainId, url).1;
    var i := FindPage(s'.pages, domainId, url);
    assert s'.pages[|s.pages|] == PageRow(s.nextPage, domainId, url);
    assert forall j :: 0 <= j < |s.pages| ==> s'.pages[j] == s.pages[j];
    assert i == |s.pages|;
  }
}

/** The *Repository object that main.go creates once and hands to the
    handlers and to the service: every method runs the query of the same
    name in module Repo on the current store. */
module Database {
  import opened Http
  import opened Repo

  class Repository {
    var store: Store

    constructor (s: Store)
      ensures store == s
    {
      store := s;
    }

    method GetDomain(domain: string) returns (r: Result<int>)
      modifies this
      ensures (r, store) == Repo.GetDomain(old(store), domain)
    {
      var reply := Repo.GetDomain(store, domain);
      r, store := reply.0, reply.1;
    }

    method GetDomainIDFromKey(key: string) returns (r: Result<int>)
      modifies this
      ensures (r, store) == Repo.GetDomainIDFromKey(old(store), key)
    {
      var reply := Repo.GetDomainIDFromKey(store, key);
      r, store := reply.0, reply.1;
    }

    method GetDomainKeyPair(domain: string) returns (r: Result<DomainKeyPair>)
      modifies this
      ensures (r, store) == Repo.GetDomainKeyPair(old(store), domain)
    {
      var reply := Repo.GetDomainKeyPair(store, domain);
      r, store := reply.0, reply.1;
    }

    method GetPage(domainId: int, url: string) returns (r: Result<int>)
      modifies this
      ensures (r, store) == Repo.GetPage(old(store), domainId, url)
    {
      var reply := Repo.GetPage(store, domainId, url);
      r, store := reply.0, reply.1;
    }

    method CreatePage(domainId: int, url: string) returns (r: Result<int>)
      modifies this
      ensures (r, store) == Repo.CreatePage(old(store), domainId, url)
    {
      var reply := Repo.CreatePage(store, domainId, url);
      r, store := reply.0, reply.1;
    }

    method SaveUTM(pageId: int, source: string, medium: string, campaign: string, track: string) returns (r: Result<int>)
      modifies this
      ensures (r, store) == Repo.SaveUTM(old(store), pageId, source, medium, campaign, track)
    {
      var reply := Repo.SaveUTM(store, pageId, source, medium, campaign, track);
      r, store := reply.0, reply.1;
    }

    method SaveClick(pageId: int, element: Json) returns (r: Result<int>)
      modifies this
      ensures (r, store) == Repo.SaveClick(old(store), pageId, element)
    {
      var reply := Repo.SaveClick(store, pageId, element);
      r, store := reply.0, reply.1;
    }
  }
}
