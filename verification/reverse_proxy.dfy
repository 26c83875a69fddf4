/**
 * myhttp/reverse_proxy.go: a router that picks a handler by the request's
 * host name.
 *
 * The request is reduced to the three places a host can come from; regular
 * expressions are an uninterpreted `matches(pattern, host)` predicate and
 * whether a pattern compiles is an uninterpreted `compiles(pattern)`. A
 * handler is an opaque value of type H; serving a request reports which
 * handler is invoked.
 */
module ReverseProxy {
  import opened Outcomes

  const NoDefaultHandler := "no default handler"
  const CompileFailed := "regexp: Compile"

  /** The parts of an *http.Request the router reads. */
  datatype Request = Request(urlHostname: string, hostHeader: string, host: string)

  /** A registered route: a pattern and its handler. */
  datatype Route<H> = Route(pattern: string, handler: H)

  /** Which handler served the request: the route at `index`, or the default one. */
  datatype Served<H> = ByRoute(index: nat, handler: H) | ByDefault(handler: H)

  /** The host: the URL's host name, else the Host header, else r.Host. */
  function HostOf(r: Request): (h: string)
    ensures h == "" <==> r.urlHostname == "" && r.hostHeader == "" && r.host == ""
    ensures r.urlHostname != "" ==> h == r.urlHostname
    ensures r.urlHostname == "" && r.hostHeader != "" ==> h == r.hostHeader
    ensures r.urlHostname == "" && r.hostHeader == "" ==> h == r.host
  {
    if r.urlHostname != "" then r.urlHostname
    else if r.hostHeader != "" then r.hostHeader
    else r.host
  }

  /** strings.LastIndex(s, string(c)): the last position of `c` in `s`, or -1. */
  function LastIndex(s: string, c: char): (i: int)
    ensures -1 <= i < |s|
    ensures i == -1 <==> c !in s
    ensures 0 <= i ==> s[i] == c && c !in s[i + 1..]
  {
    if s == [] then -1
    else if s[|s| - 1] == c then |s| - 1
    else
      var i := LastIndex(s[..|s| - 1], c);
      assert s[..|s| - 1] + [s[|s| - 1]] == s;
      if i >= 0 then assert s[i + 1..] == s[i + 1..|s| - 1] + [s[|s| - 1]]; i else i
  }

  /**
   * The port stripping of ServeHTTP: when the last ':' is past the first
   * character, the host is cut before it. The result is a prefix of the
   * host, shorter exactly when a ':' occurs past position 0, and then the
   * cut is at the last ':'.
   */
  function StripPort(host: string): (h: string)
    ensures h <= host
    ensures |h| < |host| <==> exists i :: 0 < i < |host| && host[i] == ':'
    ensures |h| < |host| ==> 0 < |h| && host[|h|] == ':' && ':' !in host[|h| + 1..]
  {
    var i := LastIndex(host, ':');
    if i > 0 then host[..i] else host
  }

  /** `name:port` loses exactly `:port`, whatever colons `name` holds. */
  lemma StripPortRoundTrip(name: string, port: string)
    requires name != "" && ':' !in port
    ensures StripPort(name + ":" + port) == name
  {
    var s := name + ":" + port;
    assert s[|name|] == ':' && s[|name| + 1..] == port;
    assert s[..|name|] == name;
  }

  /** A host with no ':' after its first character is left as it is. */
  lemma StripPortKeepsBareHost(host: string)
    requires forall i :: 0 < i < |host| ==> host[i] != ':'
    ensures StripPort(host) == host
  {
  }

  /**
   * IPv6 literals are cut as if they carried a port: the URL host name of
   * `http://[::1]/` is `::1` and becomes `:`, and a Host header `[::1]`
   * becomes `[:`.
   */
  lemma StripPortMangling()
    ensures StripPort("::1") == ":"
    ensures StripPort("[::1]") == "[:"
  {
    assert LastIndex("::1", ':') == 1;
    assert LastIndex("[::1]", ':') == 2;
  }

  /**
   * Port stripping that respects IP literals (section 3.2.2 of RFC 3986):
   * the last ':' is taken as the port separator only when no other ':'
   * precedes it, or when it directly follows the ']' closing a literal.
   */
  function HostWithoutPort(host: string): (h: string)
    ensures h <= host
  {
    var i := LastIndex(host, ':');
    if i > 0 && (':' !in host[..i] || host[i - 1] == ']') then host[..i] else host
  }

  /** A name without ':' followed by `:port`, or a bracketed literal followed by `:port`, loses the port. */
  lemma HostWithoutPortStripsPort(name: string, port: string)
    requires name != "" && ':' !in port
    requires ':' !in name || name[|name| - 1] == ']'
    ensures HostWithoutPort(name + ":" + port) == name
  {
    var s := name + ":" + port;
    assert s[|name|] == ':' && s[|name| + 1..] == port && s[..|name|] == name;
  }

  /** The last occurrence of `c` is at or after any occurrence. */
  lemma LastIndexAtLeast(s: string, c: char, j: nat)
    requires j < |s| && s[j] == c
    ensures LastIndex(s, c) >= j
  {
  }

  /** A bare IPv6 address (two or more ':', no ']') is left whole. */
  lemma HostWithoutPortKeepsAddress(addr: string, i: nat, j: nat)
    requires i < j < |addr| && addr[i] == ':' && addr[j] == ':' && ']' !in addr
    ensures HostWithoutPort(addr) == addr
  {
    var k := LastIndex(addr, ':');
    LastIndexAtLeast(addr, ':', j);
    assert addr[i] in addr[..k];
    assert addr[k - 1] in addr;
  }

  /** A bracketed IPv6 literal without a port is left whole. */
  lemma HostWithoutPortKeepsLiteral(addr: string, i: nat, j: nat)
    requires i < j < |addr| && addr[i] == ':' && addr[j] == ':' && ']' !in addr
    ensures HostWithoutPort("[" + addr + "]") == "[" + addr + "]"
  {
    var b := "[" + addr + "]";
    var m := LastIndex(b, ':');
    assert b[j + 1] == ':';
    LastIndexAtLeast(b, ':', j + 1);
    assert b[m - 1] == addr[m - 2];
    assert addr[m - 2] in addr;
    assert b[i + 1] in b[..m];
  }

  /**
   * The route lookup of ServeHTTP from position `i`: the first route whose
   * pattern matches serves, else the default handler, else a panic.
   */
  function DispatchFrom<H>(routes: seq<Route<H>>, defhandler: Option<H>, host: string,
                           matches: (string, string) -> bool, i: nat): (r: Result<Served<H>>)
    requires i <= |routes|
    ensures r.Ok? && r.value.ByRoute? ==>
              && i <= r.value.index < |routes|
              && r.value.handler == routes[r.value.index].handler
              && matches(routes[r.value.index].pattern, host)
    ensures r.Ok? && r.value.ByDefault? ==> defhandler == Some(r.value.handler)
    ensures r.Panic? ==> r.message == NoDefaultHandler && defhandler.None?
    decreases |routes| - i
  {
    if i == |routes| then
      if defhandler.None? then Panic(NoDefaultHandler) else Ok(ByDefault(defhandler.value))
    else if matches(routes[i].pattern, host) then Ok(ByRoute(i, routes[i].handler))
    else DispatchFrom(routes, defhandler, host, matches, i + 1)
  }

  /**
   * Dispatch serves by the first matching route at or after `i`, and by the
   * default handler, or panics without one, only when none matches; exactly
   * one handler is chosen.
   */
  lemma {:induction false} DispatchChoosesFirstMatch<H>(routes: seq<Route<H>>, defhandler: Option<H>, host: string,
                                                        matches: (string, string) -> bool, i: nat)
    requires i <= |routes|
    ensures var served := DispatchFrom(routes, defhandler, host, matches, i);
            && (served.Ok? && served.value.ByRoute? ==>
                  && i <= served.value.index < |routes|
                  && served.value.handler == routes[served.value.index].handler
                  && matches(routes[served.value.index].pattern, host)
                  && forall j :: i <= j < served.value.index ==> !matches(routes[j].pattern, host))
            && (served.Ok? && served.value.ByDefault? ==>
                  && defhandler == Some(served.value.handler)
                  && forall j :: i <= j < |routes| ==> !matches(routes[j].pattern, host))
            && (served.Panic? ==>
                  && served.message == NoDefaultHandler && defhandler == None
                  && forall j :: i <= j < |routes| ==> !matches(routes[j].pattern, host))
    decreases |routes| - i
  {
    if i < |routes| && !matches(routes[i].pattern, host) {
      DispatchChoosesFirstMatch(routes, defhandler, host, matches, i + 1);
    }
  }

  class ReverseProxyRouter<H> {
    var routes: seq<Route<H>>
    var defhandler: Option<H>

    /** The zero ReverseProxyRouter: no routes and no default handler. */
    constructor ()
      ensures routes == [] && defhandler == None
    {
      routes, defhandler := [], None;
    }

    /**
     * Add: compiles the pattern (regexp.MustCompile panics when it does not
     * compile) and appends one route at the end.
     */
    method Add(pattern: string, handler: H, compiles: string -> bool) returns (r: Result<()>)
      modifies this`routes
      ensures compiles(pattern) ==> r == Ok(()) && routes == old(routes) + [Route(pattern, handler)]
      ensures !compiles(pattern) ==> r == Panic(CompileFailed) && routes == old(routes)
    {
      if !compiles(pattern) {
        return Panic(CompileFailed);
      }
      routes := routes + [Route(pattern, handler)];
      return Ok(());
    }

    /** Default: sets (or, with None, clears) the fallback handler. */
    method Default(handler: Option<H>)
      modifies this`defhandler
      ensures defhandler == handler
    {
      defhandler := handler;
    }

    /**
     * ServeHTTP: the host is chosen and its port stripped; the first route
     * whose pattern matches serves the request; with none, the default
     * handler does, and without one the call panics.
     */
    method ServeHTTP(req: Request, matches: (string, string) -> bool) returns (served: Result<Served<H>>)
      ensures served == DispatchFrom(routes, defhandler, StripPort(HostOf(req)), matches, 0)
    {
      var host := HostOf(req);
      var idx := LastIndex(host, ':');
      if idx > 0 {
        host := host[..idx];
      }
      var i := 0;
      while i < |routes|
        invariant 0 <= i <= |routes|
        invariant DispatchFrom(routes, defhandler, host, matches, 0) == DispatchFrom(routes, defhandler, host, matches, i)
      {
        if matches(routes[i].pattern, host) {
          return Ok(ByRoute(i, routes[i].handler));
        }
        i := i + 1;
      }
      if defhandler.None? {
        return Panic(NoDefaultHandler);
      }
      return Ok(ByDefault(defhandler.value));
    }
  }

  /** The regular expression `^pero\.com$`. */
  predicate IsPeroCom(host: string)
  {
    host == "pero.com"
  }

  /** The regular expression `^.+\.pero\.com$`. */
  predicate IsSubdomainOfPeroCom(host: string)
  {
    |host| > 9 && host[|host| - 9..] == ".pero.com"
  }

  /** The two patterns of the router test, as a matcher. */
  function TestMatcher(pattern: string, host: string): bool
  {
    if pattern == "^pero\\.com$" then IsPeroCom(host)
    else if pattern == "^.+\\.pero\\.com$" then IsSubdomainOfPeroCom(host)
    else false
  }

  /** The routes of the router test: `^pero\\.com$` to 1, then `^.+\\.pero\\.com$` to 2. */
  function TestRoutes(): seq<Route<int>>
  {
    [Route("^pero\\.com$", 1), Route("^.+\\.pero\\.com$", 2)]
  }

  /** How the test's router, with default handler 3, serves `req`. */
  function TestServe(req: Request): Result<Served<int>>
  {
    DispatchFrom(TestRoutes(), Some(3), StripPort(HostOf(req)), TestMatcher, 0)
  }

  /** The test routes send a host to the first route exactly when it is pero.com. */
  lemma TestDispatchFirst(host: string)
    requires IsPeroCom(host)
    ensures DispatchFrom(TestRoutes(), Some(3), host, TestMatcher, 0) == Ok(ByRoute(0, 1))
  {
  }

  /** A subdomain of pero.com goes to the second route. */
  lemma TestDispatchSecond(host: string)
    requires !IsPeroCom(host) && IsSubdomainOfPeroCom(host)
    ensures DispatchFrom(TestRoutes(), Some(3), host, TestMatcher, 0) == Ok(ByRoute(1, 2))
  {
    assert DispatchFrom(TestRoutes(), Some(3), host, TestMatcher, 1) == Ok(ByRoute(1, 2));
  }

  /** Any other host goes to the default handler. */
  lemma TestDispatchDefault(host: string)
    requires !IsPeroCom(host) && !IsSubdomainOfPeroCom(host)
    ensures DispatchFrom(TestRoutes(), Some(3), host, TestMatcher, 0) == Ok(ByDefault(3))
  {
    assert DispatchFrom(TestRoutes(), Some(3), host, TestMatcher, 2) == Ok(ByDefault(3));
  }

  /** https://pero.com/lala/pero: host pero.com, served by the first route. */
  lemma ServesPeroCom()
    ensures TestServe(Request("pero.com", "", "pero.com")) == Ok(ByRoute(0, 1))
  {
    assert ':' !in "pero.com";
    TestDispatchFirst(StripPort("pero.com"));
  }

  /** https://oh.pero.com/lala/pero: host oh.pero.com, served by the second route. */
  lemma ServesSubdomain()
    ensures TestServe(Request("oh.pero.com", "", "oh.pero.com")) == Ok(ByRoute(1, 2))
  {
    var host := "oh.pero.com";
    assert ':' !in host;
    assert host[2..] == ".pero.com";
    TestDispatchSecond(host);
  }

  /** https://missed: host missed, matched by neither route, served by the default handler. */
  lemma ServesMissedByDefault()
    ensures TestServe(Request("missed", "", "missed")) == Ok(ByDefault(3))
  {
    assert ':' !in "missed";
    TestDispatchDefault("missed");
  }

  /**
   * https://pero.com:8080/lala/pero: the URL's host name is pero.com (Go's
   * Hostname drops the port), so the first route serves.
   */
  lemma ServesPortedHost()
    ensures TestServe(Request("pero.com", "", "pero.com:8080")) == Ok(ByRoute(0, 1))
  {
    assert ':' !in "pero.com";
    TestDispatchFirst("pero.com");
  }

  /** r.Host pero.com:8080 alone: the port is stripped and the first route serves. */
  lemma ServesPortOnHost()
    ensures TestServe(Request("", "", "pero.com:8080")) == Ok(ByRoute(0, 1))
  {
    assert StripPort("pero.com:8080") == "pero.com" by {
      assert "pero.com" + ":" + "8080" == "pero.com:8080";
      StripPortRoundTrip("pero.com", "8080");
    }
    TestDispatchFirst("pero.com");
  }

  /** /lala/pero with the Host header ribi.pero.com: the second route. */
  lemma ServesHeaderHost()
    ensures TestServe(Request("", "ribi.pero.com", "")) == Ok(ByRoute(1, 2))
  {
    var host := "ribi.pero.com";
    assert ':' !in host;
    assert host[4..] == ".pero.com";
    TestDispatchSecond(host);
  }

  /** The router of the test, built by Add, Add and Default. */
  method TestRouter() returns (proxy: ReverseProxyRouter<int>)
    ensures fresh(proxy) && proxy.routes == TestRoutes() && proxy.defhandler == Some(3)
  {
    proxy := new ReverseProxyRouter<int>();
    var _ := proxy.Add("^pero\\.com$", 1, _ => true);
    var _ := proxy.Add("^.+\\.pero\\.com$", 2, _ => true);
    proxy.Default(Some(3));
  }

  /**
   * The router test: the first route serves pero.com (also with a port on
   * r.Host), the second a subdomain (also one named by the Host header),
   * the default anything else.
   */
  method RouterScenario() returns (served: seq<Result<Served<int>>>)
    ensures served == [Ok(ByRoute(0, 1)), Ok(ByRoute(1, 2)), Ok(ByDefault(3)), Ok(ByRoute(0, 1)), Ok(ByRoute(1, 2))]
  {
    var proxy := TestRouter();
    ServesPeroCom();
    var r1 := proxy.ServeHTTP(Request("pero.com", "", "pero.com"), TestMatcher);
    ServesSubdomain();
    var r2 := proxy.ServeHTTP(Request("oh.pero.com", "", "oh.pero.com"), TestMatcher);
    ServesMissedByDefault();
    var r3 := proxy.ServeHTTP(Request("missed", "", "missed"), TestMatcher);
    ServesPortedHost();
    var r4 := proxy.ServeHTTP(Request("pero.com", "", "pero.com:8080"), TestMatcher);
    ServesHeaderHost();
    var r5 := proxy.ServeHTTP(Request("", "ribi.pero.com", ""), TestMatcher);
    served := [r1, r2, r3, r4, r5];
  }
}
