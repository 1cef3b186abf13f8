/** A simplified model of Go's url.Parse and net.SplitHostPort, and the two
    helpers the tracking code builds on them: getDomainFromOrigin (three
    identical copies, in api/middleware/middleware.go, api/router/middleware/
    middleware.go and api/track/handler.go) and getPageFromURL. */
module Url {
  import opened Http

  /** The parts of a parsed URL the helpers read. */
  datatype URL = URL(scheme: string, host: string, path: string)

  /** strings.IndexByte: the first position of `c`, or -1. */
  function IndexOf(s: string, c: char): (i: int)
    ensures -1 <= i < |s|
    ensures 0 <= i ==> s[i] == c && c !in s[..i]
    ensures i == -1 ==> c !in s
  {
    if s == [] then -1
    else if s[0] == c then 0
    else
      var k := IndexOf(s[1..], c);
      assert s[1..] == s[1..][..|s| - 1];
      if k == -1 then -1
      else
        assert s[..k + 1] == [s[0]] + s[1..][..k];
        k + 1
  }

  /** strings.LastIndexByte: the last position of `c`, or -1. */
  function LastIndexOf(s: string, c: char): (i: int)
    ensures -1 <= i < |s|
    ensures 0 <= i ==> s[i] == c && c !in s[i + 1..]
    ensures i == -1 ==> c !in s
  {
    if s == [] then -1
    else if s[|s| - 1] == c then |s| - 1
    else
      var k := LastIndexOf(s[..|s| - 1], c);
      assert s == s[..|s| - 1] + [s[|s| - 1]];
      if k == -1 then k
      else
        assert s[k + 1..] == s[..|s| - 1][k + 1..] + [s[|s| - 1]];
        k
  }

  /** Every character of `a` occurs in `b`. */
  predicate Within(a: string, b: string)
  {
    forall c :: c in a ==> c in b
  }

  /** The part of `s` before the first `c` (all of `s` when there is none). */
  function Before(s: string, c: char): (b: string)
    ensures c !in b && Within(b, s)
  {
    var i := IndexOf(s, c);
    if i < 0 then s else s[..i]
  }

  /** The part of `s` from the first `c` on ("" when there is none). */
  function From(s: string, c: char): (f: string)
    ensures Within(f, s)
  {
    var i := IndexOf(s, c);
    if i < 0 then "" else s[i..]
  }

  predicate StartsWith(s: string, prefix: string)
  {
    |prefix| <= |s| && s[..|prefix|] == prefix
  }

  /** An ASCII control byte, which url.Parse refuses. */
  predicate IsCTL(c: char)
  {
    c < ' ' || c == 127 as char
  }

  predicate HasCTL(s: string)
  {
    s != [] && (IsCTL(s[0]) || HasCTL(s[1..]))
  }

  predicate IsLetter(c: char)
  {
    'a' <= c <= 'z' || 'A' <= c <= 'Z'
  }

  predicate IsDigit(c: char)
  {
    '0' <= c <= '9'
  }

  predicate IsSchemeChar(c: char)
  {
    IsLetter(c) || IsDigit(c) || c == '+' || c == '-' || c == '.'
  }

  predicate AllDigits(s: string)
  {
    forall i :: 0 <= i < |s| ==> IsDigit(s[i])
  }

  /** The number of leading characters that may appear in a scheme. */
  function SchemeLength(s: string): (n: nat)
    ensures n <= |s|
    ensures forall i :: 0 <= i < n ==> IsSchemeChar(s[i])
    ensures n < |s| ==> !IsSchemeChar(s[n])
  {
    if s == [] || !IsSchemeChar(s[0]) then 0 else 1 + SchemeLength(s[1..])
  }

  /** url.getScheme: None is the "missing protocol scheme" error (a leading
      ':'); otherwise the scheme ("" when there is none) and the rest. */
  function GetScheme(raw: string): (r: Option<(string, string)>)
    ensures r.Some? ==> Within(r.value.1, raw)
  {
    if raw == [] then Some(("", raw))
    else if raw[0] == ':' then None
    else if !IsLetter(raw[0]) then Some(("", raw))
    else
      var n := SchemeLength(raw);
      if n < |raw| && raw[n] == ':' then Some((raw[..n], raw[n + 1..])) else Some(("", raw))
  }

  /** url.validOptionalPort: "", ":" or ':' followed by digits. */
  predicate ValidOptionalPort(port: string)
  {
    port == "" || (port[0] == ':' && AllDigits(port[1..]))
  }

  /** A character url.parseHost lets through in a host: letters, digits,
      the sub-delimiters, ':', the brackets, '<', '>', '"', the unreserved
      marks, and every non-ASCII character. A space, '{', '}', '|', '\\',
      '^', '`' and control characters are refused. '%' is refused too: url.Parse
      accepts it only as an escape, which this model does not decode. */
  predicate HostChar(c: char)
  {
    IsLetter(c) || IsDigit(c) || c in "!$&'()*+,;=:[]<>\"-_.~" || c >= 128 as char
  }

  predicate HostChars(host: string)
  {
    forall c :: c in host ==> HostChar(c)
  }

  /** url.parseHost: None is an "invalid port", a "missing ']'" or an
      "invalid character in host name" error. */
  function ParseHost(host: string): (h: Option<string>)
    ensures h.Some? ==> h.value == host && HostChars(host)
  {
    var portOK :=
      if StartsWith(host, "[") then
        var i := LastIndexOf(host, ']');
        0 <= i && ValidOptionalPort(host[i + 1..])
      else
        var i := LastIndexOf(host, ':');
        i < 0 || ValidOptionalPort(host[i..]);
    if portOK && HostChars(host) then Some(host) else None
  }

  /** url.Parse, for the scheme, host and path. The fragment is cut at the
      first '#' and the query at the first '?'. */
  function Parse(raw: string): (u: Option<URL>)
    ensures u.Some? ==> HostChars(u.value.host)
    ensures u.Some? ==> '#' !in u.value.path && '?' !in u.value.path
  {
    var s := Before(raw, '#');
    if HasCTL(s) then None
    else if s == "*" then Some(URL("", "", "*"))
    else match GetScheme(s)
      case None => None
      case Some(split) => ParseAfterScheme(split.0, Before(split.1, '?'))
  }

  /** What follows the scheme: a URL with no path part (a scheme not followed by '/')
      has an empty path; a relative URL whose first segment holds ':' is an
      error; "//" starts an authority. */
  function ParseAfterScheme(scheme: string, rest: string): (u: Option<URL>)
    ensures u.Some? ==> HostChars(u.value.host) && Within(u.value.path, rest)
  {
    if !StartsWith(rest, "/") && scheme != "" then Some(URL(scheme, "", ""))
    else if !StartsWith(rest, "/") && ':' in Before(rest, '/') then None
    else if (scheme != "" || !StartsWith(rest, "///")) && StartsWith(rest, "//") then
      ParseAuthority(scheme, rest[2..])
    else Some(URL(scheme, "", rest))
  }

  /** The authority runs to the next '/'; its host follows the last '@'. */
  function ParseAuthority(scheme: string, tail: string): (u: Option<URL>)
    ensures u.Some? ==> HostChars(u.value.host) && Within(u.value.path, tail)
  {
    var authority := Before(tail, '/');
    var host := ParseHost(authority[LastIndexOf(authority, '@') + 1..]);
    if host.None? then None else Some(URL(scheme, host.value, From(tail, '/')))
  }

  /** net.SplitHostPort: None is its error (no port, too many colons, a
      misplaced bracket); otherwise the host and the port. */
  function SplitHostPort(hostport: string): (r: Option<(string, string)>)
    ensures ':' !in hostport ==> r.None?
    ensures r.Some? ==> Within(r.value.0, hostport) && ':' !in r.value.1
    ensures r.Some? ==> hostport == HostPort(r.value.0, r.value.1, hostport[0] == '[')
  {
    var i := LastIndexOf(hostport, ':');
    if i < 0 then None
    else if hostport[0] == '[' then
      var end := IndexOf(hostport, ']');
      if end < 0 || end + 1 != i then None
      else if '[' in hostport[1..] || ']' in hostport[end + 1..] then None
      else
        assert hostport == "[" + hostport[1..end] + "]" + ":" + hostport[i + 1..];
        Some((hostport[1..end], hostport[i + 1..]))
    else
      var host := hostport[..i];
      if ':' in host || '[' in hostport || ']' in hostport then None
      else
        assert hostport == host + ":" + hostport[i + 1..];
        Some((host, hostport[i + 1..]))
  }

  /** "host:port", with the host in brackets when `bracketed` (the form
      net.JoinHostPort gives a host that holds a ':'). */
  function HostPort(host: string, port: string, bracketed: bool): string
  {
    (if bracketed then "[" + host + "]" else host) + ":" + port
  }

  /** getDomainFromOrigin: "" when the origin does not parse, the host
      without its port when it has one, the host as it is otherwise. */
  function GetDomainFromOrigin(origin: string): (d: string)
    ensures HostChars(d)
    ensures Parse(origin).None? ==> d == ""
  {
    match Parse(origin)
    case None => ""
    case Some(u) =>
      match SplitHostPort(u.host)
      case None => u.host
      case Some((host, _)) => host
  }

  /** getPageFromURL: "" when the URL does not parse, "/" for an empty path,
      the path otherwise. */
  function GetPageFromURL(pageURL: string): (p: string)
    ensures p == "" <==> Parse(pageURL).None?
    ensures '#' !in p && '?' !in p
  {
    match Parse(pageURL)
    case None => ""
    case Some(u) => if u.path == "" then "/" else u.path
  }

  /** A host name as browsers send it in an Origin: only characters
      url.parseHost accepts, and none of ':', '[' or ']', which delimit a
      port or an IPv6 literal. */
  predicate PlainHost(host: string)
  {
    forall c :: c in host ==> HostChar(c) && c !in ":[]"
  }

  predicate SchemeName(scheme: string)
  {
    |scheme| > 0 && IsLetter(scheme[0]) && forall c :: c in scheme ==> IsSchemeChar(c)
  }

  /** A path as it appears in a URL before any query or fragment. */
  predicate PlainPath(path: string)
  {
    forall c :: c in path ==> !IsCTL(c) && c !in "?#"
  }

  lemma {:induction false} NoCTL(s: string)
    requires forall c :: c in s ==> !IsCTL(c)
    ensures !HasCTL(s)
  {
    if s != [] {
      assert s[0] in s;
      assert forall c :: c in s[1..] ==> c in s;
      NoCTL(s[1..]);
    }
  }

  /** No control byte, no fragment and no query. */
  predicate Clean(s: string)
  {
    forall c :: c in s ==> !IsCTL(c) && c != '#' && c != '?'
  }

  lemma CleanAppend(a: string, b: string)
    requires Clean(a) && Clean(b)
    ensures Clean(a + b)
  {
  }

  lemma Absent(s: string, c: char)
    requires c !in s
    ensures Before(s, c) == s && From(s, c) == ""
  {
  }

  lemma {:induction false} SchemeSplit(scheme: string, rest: string)
    requires SchemeName(scheme)
    ensures GetScheme(scheme + ":" + rest) == Some((scheme, rest))
  {
    var raw := scheme + ":" + rest;
    var n := SchemeLength(raw);
    assert raw[|scheme|] == ':';
    assert n == |scheme|;
    assert raw[..n] == scheme && raw[n + 1..] == rest;
  }

  lemma {:induction false} SlashSplit(authority: string, path: string)
    requires '/' !in authority
    requires path == "" || path[0] == '/'
    ensures Before(authority + path, '/') == authority
    ensures From(authority + path, '/') == path
  {
    var tail := authority + path;
    if path == "" {
      assert tail == authority;
    } else {
      var j := IndexOf(tail, '/');
      assert tail[|authority|] == '/';
      assert j == |authority|;
      assert tail[..j] == authority && tail[j..] == path;
    }
  }

  lemma LastColon(host: string, colonPort: string)
    requires ':' !in host && colonPort != "" && colonPort[0] == ':' && ':' !in colonPort[1..]
    ensures LastIndexOf(host + colonPort, ':') == |host|
    ensures (host + colonPort)[..|host|] == host && (host + colonPort)[|host| + 1..] == colonPort[1..]
  {
    var a := host + colonPort;
    var i := LastIndexOf(a, ':');
    assert a[|host|] == ':';
    assert i == |host|;
  }

  lemma DigitsNoColon(s: string)
    requires AllDigits(s)
    ensures ':' !in s
  {
  }

  lemma CleanSuffix(s: string, k: nat)
    requires Clean(s) && k <= |s|
    ensures Clean(s[k..])
  {
    assert forall c :: c in s[k..] ==> c in s;
  }

  /** A host followed by nothing or by ':' does not start with '['. */
  lemma Unbracketed(host: string, colonPort: string)
    requires PlainHost(host) && (colonPort == "" || colonPort[0] == ':')
    ensures !StartsWith(host + colonPort, "[")
  {
    var a := host + colonPort;
    if host != "" {
      assert a[0] == host[0] && host[0] in host;
    } else if colonPort != "" {
      assert a[0] == colonPort[0];
    }
  }

  lemma {:induction false} HostParses(host: string, colonPort: string)
    requires PlainHost(host) && ValidOptionalPort(colonPort)
    ensures ParseHost(host + colonPort) == Some(host + colonPort)
  {
    var a := host + colonPort;
    Unbracketed(host, colonPort);
    if colonPort == "" {
      assert a == host;
      assert ':' !in host;
    } else {
      assert ':' !in colonPort[1..] by { DigitsNoColon(colonPort[1..]); }
      LastColon(host, colonPort);
      assert a[|host|..] == colonPort;
    }
  }

  lemma {:induction false} AuthorityParses(scheme: string, host: string, colonPort: string, path: string)
    requires PlainHost(host) && ValidOptionalPort(colonPort)
    requires path == "" || path[0] == '/'
    ensures ParseAuthority(scheme, host + colonPort + path) == Some(URL(scheme, host + colonPort, path))
  {
    var authority := host + colonPort;
    assert '/' !in authority;
    SlashSplit(authority, path);
    Absent(authority, '@');
    assert authority[LastIndexOf(authority, '@') + 1..] == authority;
    HostParses(host, colonPort);
  }

  /** With a scheme, "//" always starts an authority. */
  lemma Slashes(scheme: string, tail: string)
    requires scheme != ""
    ensures ParseAfterScheme(scheme, "//" + tail) == ParseAuthority(scheme, tail)
  {
    var rest := "//" + tail;
    assert rest[..1] == "/" && rest[..2] == "//";
    assert rest[2..] == tail;
  }

  lemma AfterSchemeParses(scheme: string, tail: string, host: string, colonPort: string, path: string)
    requires scheme != "" && PlainHost(host) && ValidOptionalPort(colonPort)
    requires path == "" || path[0] == '/'
    requires tail == host + colonPort + path
    ensures ParseAfterScheme(scheme, "//" + tail) == Some(URL(scheme, host + colonPort, path))
  {
    Slashes(scheme, tail);
    AuthorityParses(scheme, host, colonPort, path);
  }

  lemma PortClean(colonPort: string)
    requires ValidOptionalPort(colonPort)
    ensures Clean(colonPort)
  {
    forall c | c in colonPort ensures c == ':' || IsDigit(c) {
      var k :| 0 <= k < |colonPort| && colonPort[k] == c;
      if k > 0 {
        assert colonPort[1..][k - 1] == c;
      }
    }
  }

  lemma AbsoluteClean(scheme: string, host: string, colonPort: string, path: string)
    requires SchemeName(scheme) && PlainHost(host) && ValidOptionalPort(colonPort)
    requires path == "" || PlainPath(path)
    ensures Clean(scheme + "://" + host + colonPort + path)
  {
    PortClean(colonPort);
    assert Clean(scheme) && Clean(host) && Clean(path) && Clean("://");
    CleanAppend(scheme, "://");
    CleanAppend(scheme + "://", host);
    CleanAppend(scheme + "://" + host, colonPort);
    CleanAppend(scheme + "://" + host + colonPort, path);
  }

  /** The first steps of url.Parse on a reference without a fragment, a
      control character or a query: split off the scheme. */
  lemma ParseUnfold(raw: string, scheme: string, afterScheme: string)
    requires Clean(raw) && raw != "*"
    requires GetScheme(raw) == Some((scheme, afterScheme))
    requires '?' !in afterScheme
    ensures Parse(raw) == ParseAfterScheme(scheme, afterScheme)
  {
    NoCTL(raw);
    Absent(raw, '#');
    Absent(afterScheme, '?');
  }

  /** url.Parse on "scheme://tail" parses `tail` as an authority and a path. */
  lemma {:induction false} AbsoluteUnfold(scheme: string, tail: string)
    requires SchemeName(scheme) && Clean(scheme + "://" + tail)
    ensures Parse(scheme + "://" + tail) == ParseAuthority(scheme, tail)
  {
    var afterScheme := "//" + tail;
    var raw := scheme + ":" + afterScheme;
    assert raw == scheme + "://" + tail;
    SchemeSplit(scheme, afterScheme);
    assert afterScheme == raw[|scheme| + 1..];
    CleanSuffix(raw, |scheme| + 1);
    ParseUnfold(raw, scheme, afterScheme);
    Slashes(scheme, tail);
  }

  /** How url.Parse splits "scheme://host[:port]path": the scheme, the host
      with its port, and the path. A path without '%' holds no escape, so
      url.Parse keeps it as it is. */
  lemma {:induction false} ParseAbsolute(scheme: string, host: string, colonPort: string, path: string)
    requires SchemeName(scheme) && PlainHost(host) && ValidOptionalPort(colonPort)
    requires path == "" || (path[0] == '/' && PlainPath(path) && '%' !in path)
    ensures Parse(scheme + "://" + host + colonPort + path) == Some(URL(scheme, host + colonPort, path))
  {
    var tail := host + colonPort + path;
    assert scheme + "://" + tail == scheme + "://" + host + colonPort + path;
    AbsoluteClean(scheme, host, colonPort, path);
    AbsoluteUnfold(scheme, tail);
    AuthorityParses(scheme, host, colonPort, path);
  }

  lemma ParseOrigin(scheme: string, host: string, colonPort: string)
    requires SchemeName(scheme) && PlainHost(host) && ValidOptionalPort(colonPort)
    ensures Parse(scheme + "://" + host + colonPort) == Some(URL(scheme, host + colonPort, ""))
  {
    ParseAbsolute(scheme, host, colonPort, "");
    assert scheme + "://" + host + colonPort + "" == scheme + "://" + host + colonPort;
  }

  /** getDomainFromOrigin on an origin that parses. */
  lemma DomainOfParsed(origin: string, u: URL)
    requires Parse(origin) == Some(u)
    ensures GetDomainFromOrigin(origin) == if SplitHostPort(u.host).None? then u.host else SplitHostPort(u.host).value.0
  {
  }

  /** getDomainFromOrigin on "scheme://host" and "scheme://host:port": the
      host, without the port when there is one. */
  lemma DomainFromOrigin(scheme: string, host: string, colonPort: string)
    requires SchemeName(scheme) && PlainHost(host) && ValidOptionalPort(colonPort)
    ensures GetDomainFromOrigin(scheme + "://" + host + colonPort) == host
  {
    ParseOrigin(scheme, host, colonPort);
    DomainOfParsed(scheme + "://" + host + colonPort, URL(scheme, host + colonPort, ""));
    HostOfHostPort(host, colonPort);
  }

  /** What getDomainFromOrigin keeps of a plain host and an optional port. */
  lemma {:induction false} HostOfHostPort(host: string, colonPort: string)
    requires PlainHost(host) && ValidOptionalPort(colonPort)
    ensures (if SplitHostPort(host + colonPort).None? then host + colonPort else SplitHostPort(host + colonPort).value.0) == host
  {
    if colonPort == "" {
      assert host + colonPort == host;
      SplitNoPort(host);
    } else {
      DigitsNoColon(colonPort[1..]);
      assert colonPort == [':'] + colonPort[1..];
      assert '[' !in colonPort && ']' !in colonPort;
      SplitWithPort(host, colonPort);
    }
  }

  /** net.SplitHostPort on a plain host: "missing port in address". */
  lemma SplitNoPort(host: string)
    requires PlainHost(host)
    ensures SplitHostPort(host) == None
  {
    assert ':' !in host;
  }

  /** net.SplitHostPort on host:port. */
  lemma SplitWithPort(host: string, colonPort: string)
    requires PlainHost(host) && colonPort != "" && colonPort[0] == ':'
    requires ':' !in colonPort[1..] && '[' !in colonPort && ']' !in colonPort
    ensures SplitHostPort(host + colonPort) == Some((host, colonPort[1..]))
  {
    var a := host + colonPort;
    LastColon(host, colonPort);
    Unbracketed(host, colonPort);
    assert a[0] != '[' by { assert a[..1] != "["; }
    assert '[' !in a && ']' !in a;
  }

  /** getPageFromURL on "scheme://host[:port]path": the path, or "/" when it
      is empty. */
  lemma PageFromURL(scheme: string, host: string, colonPort: string, path: string)
    requires SchemeName(scheme) && PlainHost(host) && ValidOptionalPort(colonPort)
    requires path == "" || (path[0] == '/' && PlainPath(path) && '%' !in path)
    ensures GetPageFromURL(scheme + "://" + host + colonPort + path) == if path == "" then "/" else path
  {
    ParseAbsolute(scheme, host, colonPort, path);
  }

  lemma BadPortHost(host: string, colonPort: string)
    requires PlainHost(host)
    requires colonPort != "" && colonPort[0] == ':' && PlainHost(colonPort[1..])
    requires !AllDigits(colonPort[1..])
    ensures ParseHost(host + colonPort) == None
  {
    var authority := host + colonPort;
    LastColon(host, colonPort);
    Unbracketed(host, colonPort);
    assert authority[|host|..] == colonPort;
  }

  lemma BadPortAuthority(scheme: string, host: string, colonPort: string, path: string)
    requires PlainHost(host)
    requires colonPort != "" && colonPort[0] == ':' && PlainHost(colonPort[1..])
    requires !AllDigits(colonPort[1..])
    requires path == "" || path[0] == '/'
    ensures ParseAuthority(scheme, host + colonPort + path) == None
  {
    var authority := host + colonPort;
    assert colonPort == [':'] + colonPort[1..];
    assert '/' !in authority && '@' !in authority;
    SlashSplit(authority, path);
    Absent(authority, '@');
    assert authority[0..] == authority;
    BadPortHost(host, colonPort);
  }

  lemma BadPortClean(scheme: string, host: string, colonPort: string, path: string)
    requires SchemeName(scheme) && PlainHost(host)
    requires colonPort != "" && colonPort[0] == ':' && PlainHost(colonPort[1..])
    requires path == "" || PlainPath(path)
    ensures Clean(scheme + "://" + host + colonPort + path)
  {
    assert Clean(colonPort) by {
      forall c | c in colonPort ensures !IsCTL(c) && c != '#' && c != '?' {
        var k :| 0 <= k < |colonPort| && colonPort[k] == c;
        if k > 0 {
          assert colonPort[1..][k - 1] == c;
          HostCharClean(c);
        }
      }
    }
    assert Clean(scheme) && Clean(host) && Clean(path) && Clean("://");
    CleanAppend(scheme, "://");
    CleanAppend(scheme + "://", host);
    CleanAppend(scheme + "://" + host, colonPort);
    CleanAppend(scheme + "://" + host + colonPort, path);
  }

  /** "scheme://host:port[path]" whose port is not all digits: url.Parse
      reports an invalid port. */
  lemma {:induction false} BadPortParse(scheme: string, host: string, colonPort: string, path: string)
    requires SchemeName(scheme) && PlainHost(host)
    requires colonPort != "" && colonPort[0] == ':' && PlainHost(colonPort[1..])
    requires !AllDigits(colonPort[1..])
    requires path == "" || (path[0] == '/' && PlainPath(path))
    ensures Parse(scheme + "://" + host + colonPort + path) == None
  {
    var tail := host + colonPort + path;
    assert scheme + "://" + tail == scheme + "://" + host + colonPort + path;
    BadPortClean(scheme, host, colonPort, path);
    AbsoluteUnfold(scheme, tail);
    BadPortAuthority(scheme, host, colonPort, path);
  }

  /** An origin whose port is not all digits: getDomainFromOrigin gives "". */
  lemma BadPort(scheme: string, host: string, colonPort: string)
    requires SchemeName(scheme) && PlainHost(host)
    requires colonPort != "" && colonPort[0] == ':' && PlainHost(colonPort[1..])
    requires !AllDigits(colonPort[1..])
    ensures GetDomainFromOrigin(scheme + "://" + host + colonPort) == ""
  {
    BadPortParse(scheme, host, colonPort, "");
    assert scheme + "://" + host + colonPort + "" == scheme + "://" + host + colonPort;
  }

  /** A page URL whose port is not all digits: getPageFromURL gives "". */
  lemma BadURLPage(scheme: string, host: string, colonPort: string, path: string)
    requires SchemeName(scheme) && PlainHost(host)
    requires colonPort != "" && colonPort[0] == ':' && PlainHost(colonPort[1..])
    requires !AllDigits(colonPort[1..])
    requires path == "" || (path[0] == '/' && PlainPath(path))
    ensures GetPageFromURL(scheme + "://" + host + colonPort + path) == ""
  {
    BadPortParse(scheme, host, colonPort, path);
  }

  /** A character that cannot appear in a URL's authority without ending it
      or being cut off before it. */
  predicate Delimiter(c: char)
  {
    c in "/?#@"
  }

  lemma HostCharClean(c: char)
    requires HostChar(c)
    ensures !IsCTL(c) && !Delimiter(c)
  {
  }

  lemma BadCharAuthority(scheme: string, host: string, c: char, path: string)
    requires PlainHost(host) && !IsCTL(c) && !Delimiter(c) && !HostChar(c)
    requires path == "" || path[0] == '/'
    ensures ParseAuthority(scheme, host + [c] + path) == None
  {
    var authority := host + [c];
    assert '/' !in authority && '@' !in authority && ':' !in authority;
    SlashSplit(authority, path);
    Absent(authority, '@');
    assert authority[0..] == authority;
    assert !StartsWith(authority, "[") by {
      assert authority[0] in authority;
    }
    assert !HostChars(authority) by {
      assert c in authority;
    }
  }

  lemma BadCharClean(scheme: string, host: string, c: char, path: string)
    requires SchemeName(scheme) && PlainHost(host) && !IsCTL(c) && !Delimiter(c)
    requires path == "" || PlainPath(path)
    ensures Clean(scheme + "://" + host + [c] + path)
  {
    assert Clean(scheme) && Clean(host) && Clean([c]) && Clean(path) && Clean("://");
    CleanAppend(scheme, "://");
    CleanAppend(scheme + "://", host);
    CleanAppend(scheme + "://" + host, [c]);
    CleanAppend(scheme + "://" + host + [c], path);
  }

  /** "scheme://host" followed by a character url.parseHost refuses (such
      as a space, '{', '|' or '^'), then an optional path: url.Parse reports
      an invalid character in the host name. */
  lemma {:induction false} BadCharParse(scheme: string, host: string, c: char, path: string)
    requires SchemeName(scheme) && PlainHost(host) && !IsCTL(c) && !Delimiter(c) && !HostChar(c)
    requires path == "" || (path[0] == '/' && PlainPath(path))
    ensures Parse(scheme + "://" + host + [c] + path) == None
  {
    var tail := host + [c] + path;
    assert scheme + "://" + tail == scheme + "://" + host + [c] + path;
    BadCharClean(scheme, host, c, path);
    AbsoluteUnfold(scheme, tail);
    BadCharAuthority(scheme, host, c, path);
  }

  /** An origin whose host holds a refused character: getDomainFromOrigin
      gives "". */
  lemma BadHostChar(scheme: string, host: string, c: char)
    requires SchemeName(scheme) && PlainHost(host) && !IsCTL(c) && !Delimiter(c) && !HostChar(c)
    ensures GetDomainFromOrigin(scheme + "://" + host + [c]) == ""
  {
    BadCharParse(scheme, host, c, "");
    assert scheme + "://" + host + [c] + "" == scheme + "://" + host + [c];
  }

  /** A page URL whose host holds a refused character: getPageFromURL
      gives "". */
  lemma BadHostPage(scheme: string, host: string, c: char, path: string)
    requires SchemeName(scheme) && PlainHost(host) && !IsCTL(c) && !Delimiter(c) && !HostChar(c)
    requires path == "" || (path[0] == '/' && PlainPath(path))
    ensures GetPageFromURL(scheme + "://" + host + [c] + path) == ""
  {
    BadCharParse(scheme, host, c, path);
  }

  /** An origin that starts with ':' has no scheme: "missing protocol
      scheme", so the domain is "". */
  lemma NoSchemeOrigin(origin: string)
    requires |origin| > 0 && origin[0] == ':'
    requires Clean(origin)
    ensures GetDomainFromOrigin(origin) == ""
  {
    NoCTL(origin);
    Absent(origin, '#');
  }
}
