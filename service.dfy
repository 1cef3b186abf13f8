/** The site-authentication service (api/service/service.go): one read of
    the stored key pair for a domain and three comparisons. */
module Service {
  import opened Repo
  import opened Database

  /** ValidateDomainKeyPair on the store `s`: whether the pair is valid, and
      the store after the one lookup it makes. A pair is valid exactly when
      the lookup succeeds, the stored domain is not empty and its key is
      `siteKey`, compared exactly. */
  function Validated(s: Store, domain: string, siteKey: string): (r: (bool, Store))
    ensures r.1 == Record(s, GetDomainKeyPairCall(domain))
    ensures r.0 <==>
      && GetDomainKeyPairCall(domain) !in s.failing
      && domain != ""
      && 0 <= FindDomain(s.domains, domain)
      && s.domains[FindDomain(s.domains, domain)].siteKey == siteKey
  {
    var (pair, s') := GetDomainKeyPair(s, domain);
    if pair.Err? then (false, s')
    else if pair.value.domain == "" then (false, s')
    else if pair.value.siteKey != siteKey then (false, s')
    else (true, s')
  }

  /** An unknown domain and a known domain with another key give the same
      answer and leave the same trace in the store, so a caller cannot tell
      them apart. */
  lemma UnknownLikeWrongKey(s: Store, unknown: string, known: string, siteKey: string)
    requires FindDomain(s.domains, unknown) == -1
    requires 0 <= FindDomain(s.domains, known) && s.domains[FindDomain(s.domains, known)].siteKey != siteKey
    ensures Validated(s, unknown, siteKey).0 == Validated(s, known, siteKey).0 == false
    ensures Validated(s, unknown, siteKey).1.domains == Validated(s, known, siteKey).1.domains == s.domains
  {
  }

  /** Validation only reads: every table is as it was, and the key-pair
      lookup is the one call made. */
  lemma ReadOnly(s: Store, domain: string, siteKey: string)
    ensures var s' := Validated(s, domain, siteKey).1;
      && s'.domains == s.domains && s'.pages == s.pages && s'.utms == s.utms && s'.clicks == s.clicks
      && s'.calls == s.calls + [GetDomainKeyPairCall(domain)]
  {
  }

  /** The Service struct: a handle on the shared repository. */
  class Service {
    const repo: Repository

    constructor (repo: Repository)
      ensures this.repo == repo
    {
      this.repo := repo;
    }

    /** Service.ValidateDomainKeyPair, with its early returns. */
    method ValidateDomainKeyPair(domain: string, siteKey: string) returns (ok: bool)
      modifies repo
      ensures (ok, repo.store) == Validated(old(repo.store), domain, siteKey)
    {
      var keyPair := repo.GetDomainKeyPair(domain);
      if keyPair.Err? {
        return false;
      }
      if keyPair.value.domain == "" {
        return false;
      }
      if keyPair.value.siteKey != siteKey {
        return false;
      }
      return true;
    }
  }
}
