/** From a request path to an origin: Cloudflare's first matching rule, then, for stripped routes, the
    local proxy's own first match. The reference is one sentence: the longest route path that is the
    request path or ends at one of its slashes, with the root taking what is left. */
module Dispatch {
  import opened Prelude
  import opened PathOrder
  import opened RoutePath
  import opened Routes
  import opened PathRegex
  import opened PatternSyntax

  // ---- the reference -------------------------------------------------------------------------

  /** A prefix that respects path boundaries. */
  predicate MatchesPrefix(s: string, prefix: string) {
    s == prefix || prefix + "/" <= s
  }

  predicate Accepts(path: string, s: string) {
    path == "/" || MatchesPrefix(s, path)
  }

  function Longest(routes: seq<Route>, s: string): (r: Option<Route>)
    ensures r.None? ==> forall q :: q in routes ==> !Accepts(q.path, s)
    ensures r.Some? ==> r.value in routes && Accepts(r.value.path, s)
    ensures r.Some? ==> forall q :: q in routes && Accepts(q.path, s) ==> |q.path| <= |r.value.path|
  {
    if routes == [] then None
    else
      var rest := Longest(routes[1..], s);
      assert routes == [routes[0]] + routes[1..];
      if Accepts(routes[0].path, s) && (rest.None? || |rest.value.path| < |routes[0].path|)
      then Some(routes[0]) else rest
  }

  datatype Delivery = NotFound | Delivered(target: Url, path: string, strippedPrefix: Option<string>)

  /** strings.TrimPrefix, with an empty remainder read as the root. */
  function Strip(path: string, s: string): string {
    var rest := if path <= s then s[|path|..] else s;
    if rest == "" then "/" else rest
  }

  function DeliverBy(r: Route, s: string): Delivery {
    if r.strip then Delivered(r.origin, Strip(r.path, s), Some(r.path)) else Delivered(r.origin, s, None)
  }

  /** What the design promises for request path s. */
  function Promised(routes: seq<Route>, s: string): Delivery {
    var r := Longest(routes, s);
    if r.None? then NotFound else DeliverBy(r.value, s)
  }

  lemma StripKeepsTheRest(path: string, s: string)
    requires MatchesPrefix(s, path)
    ensures Strip(path, s) != "" && Strip(path, s)[0] == '/'
    ensures if s == path then Strip(path, s) == "/" else path + Strip(path, s) == s
  {
    if s != path {
      assert s[|path|] == (path + "/")[|path|];
      assert s == path + s[|path|..];
    }
  }

  /** A set of routes in any order. */
  ghost predicate RouteSet(routes: seq<Route>) {
    && KeysDistinct(PathOf, routes)
    && (forall r :: r in routes ==> WellShaped(r.path) && (r.path == "/" ==> !r.strip))
    && (exists r :: r in routes && r.path == "/")
  }

  // ---- the two stages ------------------------------------------------------------------------

  predicate IsLoopback(ip: seq<int>) {
    (|ip| == 4 && ip[0] == 127) || ip == seq(15, i => 0) + [1]
  }

  predicate Loopback(name: HostName) {
    name.Localhost? || (name.Ip? && IsLoopback(name.bytes))
  }

  /** sameEndpoint, on hosts that net.SplitHostPort and net.ParseIP have read. */
  predicate SameEndpoint(left: Host, right: Host) {
    && left.WithPort? && right.WithPort? && left.port == right.port
    && (|| (Loopback(left.name) && Loopback(right.name))
        || (left.name.Ip? && right.name.Ip? && left.name.bytes == right.name.bytes))
  }

  /** An origin leads back to the proxy exactly if it names the proxy's port on this machine: localhost, any
      127.x.y.z, or ::1. */
  lemma LoopsBackIff(host: Host, addr: Host)
    requires ValidAddr(addr)
    ensures SameEndpoint(host, addr) <==>
            && host.WithPort? && host.port == addr.port
            && (|| host.name == Localhost
                || (host.name.Ip? && |host.name.bytes| == 4 && host.name.bytes[0] == 127)
                || host.name == Ip([0, 0, 0, 0, 0, 0, 0, 0, 0, 0, 0, 0, 0, 0, 0, 1]))
  {
    assert seq(15, i => 0) + [1] == [0, 0, 0, 0, 0, 0, 0, 0, 0, 0, 0, 0, 0, 0, 0, 1];
  }

  /** What configuration loading demands of INGRESS_PROXY_ADDR. */
  predicate ValidAddr(addr: Host) {
    addr.WithPort? && addr.port != "" && addr.name.Ip? && IsLoopback(addr.name.bytes)
  }

  function ProxyUrl(addr: Host): Url { Url("http", false, addr, "", "", "") }

  datatype Rule = Rule(pattern: string, service: Url)

  function RuleOf(addr: Host, r: Route): Rule {
    Rule(if r.path != "/" then PatternText(r.path) else "", if r.strip then ProxyUrl(addr) else r.origin)
  }

  function RuleFn(addr: Host): Route -> Rule { (r: Route) => RuleOf(addr, r) }

  function Rules(addr: Host, routes: seq<Route>): seq<Rule> { MapSeq(RuleFn(addr), routes) }

  method CloudflareRules(addr: Host, routes: seq<Route>) returns (rules: seq<Rule>)
    ensures rules == Rules(addr, routes)
    ensures |rules| == |routes| && forall i :: 0 <= i < |rules| ==>
              && (rules[i].pattern == "" <==> routes[i].path == "/")
              && rules[i].service == if routes[i].strip then Url("http", false, addr, "", "", "") else routes[i].origin
  {
    rules := [];
    for i := 0 to |routes|
      invariant |rules| == i
      invariant forall k :: 0 <= k < i ==> rules[k] == RuleOf(addr, routes[k])
    {
      var route := routes[i];
      var path := "";
      if route.path != "/" {
        path := "^" + QuoteMeta(route.path) + "(/.*)?$";
      }
      var service := route.origin;
      if route.strip {
        service := ProxyUrl(addr);
      }
      rules := rules + [Rule(path, service)];
    }
  }

  /** cloudflared: a rule without a path takes everything. */
  ghost predicate RuleMatches(rule: Rule, s: string) {
    rule.pattern == "" || (Compile(rule.pattern).Some? && MatchString(Compile(rule.pattern).value, s))
  }

  ghost function FirstRule(rules: seq<Rule>, s: string): (r: Option<Rule>)
    ensures r.None? <==> forall q :: q in rules ==> !RuleMatches(q, s)
  {
    if rules == [] then None
    else if RuleMatches(rules[0], s) then Some(rules[0])
    else
      assert rules == [rules[0]] + rules[1..];
      FirstRule(rules[1..], s)
  }

  /** The proxy's scan of its index for one host name. */
  function FirstMatch(index: seq<Route>, s: string): (r: Option<Route>)
    ensures r.None? <==> forall q :: q in index ==> !MatchesPrefix(s, q.path)
    ensures r.Some? ==> r.value in index && MatchesPrefix(s, r.value.path)
  {
    if index == [] then None
    else if MatchesPrefix(s, index[0].path) then Some(index[0])
    else
      assert index == [index[0]] + index[1..];
      FirstMatch(index[1..], s)
  }

  function ProxyDelivers(index: seq<Route>, s: string): Delivery {
    var r := FirstMatch(index, s);
    if r.None? then NotFound else Delivered(r.value.origin, Strip(r.value.path, s), Some(r.value.path))
  }

  /** The whole way: the rules active at Cloudflare, then the proxy if that is where they point. Both
      stages see the same decoded path. A service reaches the proxy when the proxy's own self-loop
      test says it does. The catch-all rule answers 404. */
  ghost function Deliver(addr: Host, rules: seq<Rule>, index: seq<Route>, s: string): Delivery {
    var rule := FirstRule(rules, s);
    if rule.None? then NotFound
    else if SameEndpoint(rule.value.service.host, addr) then ProxyDelivers(index, s)
    else Delivered(rule.value.service, s, None)
  }

  // ---- matching one rule -----------------------------------------------------------------------

  lemma RuleMatchesIff(addr: Host, r: Route, s: string)
    ensures RuleMatches(RuleOf(addr, r), s) <==>
            || r.path == "/"
            || s == r.path
            || (r.path + "/" <= s && NewlineFree(s[|r.path| + 1..]))
  {
    if r.path != "/" {
      PatternCompiles(r.path);
      PatternMatches(r.path, s);
    }
  }

  lemma RuleMatchesPlain(addr: Host, r: Route, s: string)
    requires NewlineFree(s)
    ensures RuleMatches(RuleOf(addr, r), s) <==> Accepts(r.path, s)
  {
    RuleMatchesIff(addr, r, s);
    if r.path + "/" <= s {
      assert forall c :: c in s[|r.path| + 1..] ==> c in s;
    }
  }

  /** '.' stops at a newline, so only the root rule takes a path that holds one. */
  lemma RuleMatchesNewline(addr: Host, r: Route, s: string)
    requires !NewlineFree(s) && WellShaped(r.path)
    ensures RuleMatches(RuleOf(addr, r), s) <==> r.path == "/"
  {
    RuleMatchesIff(addr, r, s);
    assert '\n' !in r.path by { assert IsControl('\n'); }
    if r.path + "/" <= s {
      assert s == r.path + "/" + s[|r.path| + 1..];
    }
  }

  // ---- first match is longest match ------------------------------------------------------------

  lemma Comparable(p: string, q: string, s: string)
    requires WellShaped(p) && WellShaped(q) && Accepts(p, s) && Accepts(q, s)
    ensures p <= q || q <= p
  {
    if p != "/" && q != "/" {
      assert p <= s && q <= s;
    }
  }

  /** The routes whose path comes first in the list among those accepting s. */
  function FirstAccepting(routes: seq<Route>, s: string): (r: Option<Route>)
    ensures r.None? <==> forall q :: q in routes ==> !Accepts(q.path, s)
  {
    if routes == [] then None
    else if Accepts(routes[0].path, s) then Some(routes[0])
    else
      assert routes == [routes[0]] + routes[1..];
      FirstAccepting(routes[1..], s)
  }

  lemma {:induction false} FirstAcceptingAt(routes: seq<Route>, s: string) returns (i: nat)
    requires FirstAccepting(routes, s).Some?
    ensures i < |routes| && FirstAccepting(routes, s) == Some(routes[i]) && Accepts(routes[i].path, s)
    ensures forall j :: 0 <= j < i ==> !Accepts(routes[j].path, s)
  {
    if Accepts(routes[0].path, s) {
      i := 0;
    } else {
      var k := FirstAcceptingAt(routes[1..], s);
      i := k + 1;
      assert forall j :: 0 < j < i ==> routes[j] == routes[1..][j - 1];
    }
  }

  lemma SamePathSameRoute(routes: seq<Route>, a: Route, b: Route)
    requires KeysDistinct(PathOf, routes) && a in routes && b in routes && a.path == b.path
    ensures a == b
  {
    var i :| 0 <= i < |routes| && routes[i] == a;
    var j :| 0 <= j < |routes| && routes[j] == b;
    assert PathOf(routes[i]) == PathOf(routes[j]);
  }

  /** In any order that keeps prefixes behind their extensions, the first accepting route is the
      longest one. */
  lemma FirstIsLongest(routes: seq<Route>, s: string)
    requires KeysDistinct(PathOf, routes) && NoPrefixFirst(Paths(routes))
    requires forall r :: r in routes ==> WellShaped(r.path)
    ensures FirstAccepting(routes, s) == Longest(routes, s)
  {
    var longest := Longest(routes, s);
    if longest.Some? {
      var i := FirstAcceptingAt(routes, s);
      var j :| 0 <= j < |routes| && routes[j] == longest.value;
      Comparable(routes[i].path, routes[j].path, s);
      assert Paths(routes)[i] == routes[i].path && Paths(routes)[j] == routes[j].path;
      assert routes[j].path <= routes[i].path;
      SamePathSameRoute(routes, routes[i], routes[j]);
    }
  }

  /** Any two such orders of the same routes agree on every path: the rollback compiled from SQLite's
      order routes as the original did. */
  lemma OrderDoesNotMatter(a: seq<Route>, b: seq<Route>, s: string)
    requires KeysDistinct(PathOf, a) && KeysDistinct(PathOf, b)
    requires forall r :: r in a <==> r in b
    requires forall r :: r in a ==> WellShaped(r.path)
    requires NoPrefixFirst(Paths(a)) && NoPrefixFirst(Paths(b))
    ensures FirstAccepting(a, s) == FirstAccepting(b, s)
  {
    FirstIsLongest(a, s);
    FirstIsLongest(b, s);
    LongestOfSameSet(a, b, s);
  }

  lemma LongestOfSameSet(a: seq<Route>, b: seq<Route>, s: string)
    requires KeysDistinct(PathOf, a)
    requires forall r :: r in a <==> r in b
    requires forall r :: r in a ==> WellShaped(r.path)
    ensures Longest(a, s) == Longest(b, s)
  {
    var x, y := Longest(a, s), Longest(b, s);
    if x.Some? && y.Some? {
      Comparable(x.value.path, y.value.path, s);
      assert |x.value.path| == |y.value.path|;
      SamePathSameRoute(a, x.value, y.value);
    }
  }

  /** With no newline in the way, Cloudflare's first rule is the first accepting route's. */
  lemma {:induction false} FirstRulePlain(addr: Host, routes: seq<Route>, s: string)
    requires NewlineFree(s)
    ensures FirstRule(Rules(addr, routes), s) ==
            match FirstAccepting(routes, s) case None => None case Some(r) => Some(RuleOf(addr, r))
  {
    if routes != [] {
      RuleMatchesPlain(addr, routes[0], s);
      assert Rules(addr, routes)[1..] == Rules(addr, routes[1..]);
      FirstRulePlain(addr, routes[1..], s);
    }
  }

  lemma {:induction false} FirstRuleNewline(addr: Host, routes: seq<Route>, s: string, root: Route)
    requires !NewlineFree(s) && KeysDistinct(PathOf, routes)
    requires forall r :: r in routes ==> WellShaped(r.path)
    requires root in routes && root.path == "/"
    ensures FirstRule(Rules(addr, routes), s) == Some(RuleOf(addr, root))
  {
    RuleMatchesNewline(addr, routes[0], s);
    if routes[0].path == "/" {
      SamePathSameRoute(routes, routes[0], root);
    } else {
      RestOf(addr, routes, root);
      FirstRuleNewline(addr, routes[1..], s, root);
    }
  }

  lemma RestOf(addr: Host, routes: seq<Route>, root: Route)
    requires KeysDistinct(PathOf, routes) && root in routes && routes[0] != root
    ensures KeysDistinct(PathOf, routes[1..]) && root in routes[1..]
    ensures Rules(addr, routes)[1..] == Rules(addr, routes[1..])
    ensures forall r :: r in routes[1..] ==> r in routes
  {
    RestKeysDistinct(routes);
    RestRules(addr, routes);
    var k :| 0 <= k < |routes| && routes[k] == root;
    assert routes[1..][k - 1] == root;
  }

  lemma RestRules(addr: Host, routes: seq<Route>)
    requires routes != []
    ensures Rules(addr, routes)[1..] == Rules(addr, routes[1..])
  {
  }

  lemma RestKeysDistinct(routes: seq<Route>)
    requires KeysDistinct(PathOf, routes) && routes != []
    ensures KeysDistinct(PathOf, routes[1..])
  {
    var rest := routes[1..];
    forall i, j | 0 <= i < j < |rest| ensures PathOf(rest[i]) != PathOf(rest[j]) {
      assert PathOf(routes[i + 1]) != PathOf(routes[j + 1]);
    }
  }

  // ---- the index -------------------------------------------------------------------------------

  /** index holds exactly the stripped routes, longer paths first. */
  ghost predicate IsIndex(index: seq<Route>, routes: seq<Route>) {
    && KeysDistinct(PathOf, index)
    && NoPrefixFirst(Paths(index))
    && (forall r :: r in index <==> r in routes && r.strip)
  }

  /** Without a root in the list, the proxy's scan is the accepting scan. */
  lemma {:induction false} FirstMatchAccepts(index: seq<Route>, s: string)
    requires forall r :: r in index ==> r.path != "/"
    ensures FirstMatch(index, s) == FirstAccepting(index, s)
  {
    if index != [] {
      assert index == [index[0]] + index[1..];
      FirstMatchAccepts(index[1..], s);
    }
  }

  /** If the longest route of all strips, the proxy finds it. */
  lemma ProxyFindsTheLongest(routes: seq<Route>, index: seq<Route>, s: string)
    requires RouteSet(routes) && IsIndex(index, routes)
    requires Longest(routes, s).value.strip
    requires Longest(routes, s).Some?
    ensures FirstMatch(index, s) == Longest(routes, s)
  {
    var best := Longest(routes, s).value;
    FirstMatchAccepts(index, s);
    FirstIsLongest(index, s);
    assert best in index;
    var found := Longest(index, s).value;
    Comparable(best.path, found.path, s);
    SamePathSameRoute(routes, best, found);
  }

  // ---- the theorem -----------------------------------------------------------------------------

  function RootOf(routes: seq<Route>): (r: Option<Route>)
    ensures r.Some? ==> r.value in routes && r.value.path == "/"
    ensures r.None? ==> forall q :: q in routes ==> q.path != "/"
  {
    if routes == [] then None
    else if routes[0].path == "/" then Some(routes[0])
    else
      assert routes == [routes[0]] + routes[1..];
      RootOf(routes[1..])
  }

  /** When delivery is what was promised: a caller can read it off the chosen route, the root and the
      path. */
  predicate DeliversAsPromised(addr: Host, best: Route, root: Route, s: string) {
    if best.path == "/" || NewlineFree(s)
    then best.strip || !SameEndpoint(best.origin.host, addr)
    else if SameEndpoint(root.origin.host, addr) then best.strip
    else !best.strip && best.origin == root.origin
  }

  lemma ProxyUrlLoops(addr: Host)
    requires ValidAddr(addr)
    ensures SameEndpoint(ProxyUrl(addr).host, addr)
  {
  }

  /** End to end: for every route set in any admissible rule order and any admissible index, a request
      is delivered as promised exactly when its path holds no newline (or only the root accepts it)
      and the chosen direct origin is not the proxy itself; the last branch says what a newline
      changes. */
  lemma DispatchIsExact(addr: Host, routes: seq<Route>, index: seq<Route>, s: string)
    requires ValidAddr(addr) && RouteSet(routes) && NoPrefixFirst(Paths(routes)) && IsIndex(index, routes)
    ensures Longest(routes, s).Some? && RootOf(routes).Some?
    ensures Deliver(addr, Rules(addr, routes), index, s) == Promised(routes, s)
            <==> DeliversAsPromised(addr, Longest(routes, s).value, RootOf(routes).value, s)
  {
    var root := RootOf(routes).value;
    assert Accepts(root.path, s);
    var best := Longest(routes, s).value;
    ProxyUrlLoops(addr);
    if best.strip { ProxyFindsTheLongest(routes, index, s); }
    if NewlineFree(s) {
      FirstIsLongest(routes, s);
      FirstRulePlain(addr, routes, s);
    } else {
      FirstRuleNewline(addr, routes, s, root);
      if best.path == "/" { SamePathSameRoute(routes, best, root); }
    }
  }

  /** The promise itself, on the inputs the design makes it for, and in full: the longest route gets the
      request, with the path as it came or, if it strips, with its own path taken off the front. */
  lemma DispatchIsLongestPrefix(addr: Host, routes: seq<Route>, index: seq<Route>, s: string) returns (r: Route)
    requires ValidAddr(addr) && RouteSet(routes) && NoPrefixFirst(Paths(routes)) && IsIndex(index, routes)
    requires NewlineFree(s)
    requires forall q :: q in routes && !q.strip ==> !SameEndpoint(q.origin.host, addr)
    ensures Deliver(addr, Rules(addr, routes), index, s) == Promised(routes, s)
    ensures r in routes && (r.path == "/" || s == r.path || r.path + "/" <= s)
    ensures forall q :: q in routes && (q.path == "/" || s == q.path || q.path + "/" <= s) ==> |q.path| <= |r.path|
    ensures var d := Deliver(addr, Rules(addr, routes), index, s);
            && d.Delivered? && d.target == r.origin
            && if !r.strip then d.path == s && d.strippedPrefix == None
               else if s == r.path then d.path == "/" && d.strippedPrefix == Some(r.path)
               else s == r.path + d.path && d.path[..1] == "/" && d.strippedPrefix == Some(r.path)
  {
    DispatchIsExact(addr, routes, index, s);
    r := Longest(routes, s).value;
    LongestIsAhead(routes, r, s);
    if r.strip { StripKeepsTheRest(r.path, s); }
  }

  lemma LongestIsAhead(routes: seq<Route>, r: Route, s: string)
    requires Longest(routes, s) == Some(r)
    ensures r in routes && (r.path == "/" || s == r.path || r.path + "/" <= s)
    ensures forall q :: q in routes && (q.path == "/" || s == q.path || q.path + "/" <= s) ==> |q.path| <= |r.path|
  {
    forall q | q in routes && (q.path == "/" || s == q.path || q.path + "/" <= s) ensures |q.path| <= |r.path| {
      assert Accepts(q.path, s);
    }
  }

  /** A newline in the path sends a request past the route that the prefix rule names: "/a/" and a newline
      belongs to "/a" and goes to the root. */
  lemma NewlineGoesToTheRoot(addr: Host)
    requires ValidAddr(addr)
    ensures var a := Route("a", "d", "/a", Url("http", false, Bare(Name("a")), "", "", ""), false, 0, 0);
            var root := Route("r", "d", "/", Url("http", false, Bare(Name("r")), "", "", ""), false, 0, 0);
            && Promised([a, root], "/a/\n") == Delivered(a.origin, "/a/\n", None)
            && Deliver(addr, Rules(addr, [a, root]), [], "/a/\n") == Delivered(root.origin, "/a/\n", None)
  {
    var a := Route("a", "d", "/a", Url("http", false, Bare(Name("a")), "", "", ""), false, 0, 0);
    var root := Route("r", "d", "/", Url("http", false, Bare(Name("r")), "", "", ""), false, 0, 0);
    var s := "/a/\n";
    assert [a, root][1..] == [root] && [root][1..] == [];
    assert "/a" + "/" <= s && s[3] == '\n';
    assert Longest([root], s) == Some(root);
    ShortPathsAreWellShaped();
    FirstRuleNewline(addr, [a, root], s, root);
  }

  lemma ShortPathsAreWellShaped()
    ensures WellShaped("/a") && WellShaped("/")
  {
    assert ByteLen("/") == 1 by { assert "/"[1..] == ""; }
    assert "/a"[1..] == "a" && "a"[1..] == "" && ByteLen("a") == 1 && ByteLen("/a") == 2;
  }
}
