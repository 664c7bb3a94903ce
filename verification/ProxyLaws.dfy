/** What the proxy's index means: lookups against a search of everything the proxy was told, and runs
    of operations on many domains. */
module ProxyLaws {
  import opened Prelude
  import opened PathOrder
  import opened RoutePath
  import opened Routes
  import opened RouteLaws
  import opened PathRegex
  import opened Dispatch
  import opened IngressProxy

  // ---- lookup ----------------------------------------------------------------------------------

  ghost predicate Registered(domains: Domains, host: string, r: Route) {
    exists id :: id in domains && domains[id].hostname == host && r in domains[id].routes
  }

  lemma {:induction false} CollectMembers(domains: Domains, order: seq<string>, host: string, r: Route)
    ensures r in Collect(domains, order, host) <==> exists id :: id in order && r in Contribution(domains, id, host)
  {
    if order != [] {
      var last := order[|order| - 1];
      var init := order[..|order| - 1];
      CollectMembers(domains, init, host, r);
      assert order == init + [last];
      assert Collect(domains, order, host) == Collect(domains, init, host) + Contribution(domains, last, host);
      if r in Contribution(domains, last, host) {
        assert last in order;
      }
      if id :| id in order && r in Contribution(domains, id, host) {
        assert id in init || id == last;
      }
    }
  }

  lemma IndexMembers(index: Index, domains: Domains, order: seq<string>, host: string, r: Route)
    requires Indexes(index, domains, order)
    ensures r in At(index, host) <==> Registered(domains, host, r)
  {
    CollectMembers(domains, order, host, r);
    assert r in At(index, host) <==> r in multiset(At(index, host));
    assert r in Collect(domains, order, host) <==> r in multiset(Collect(domains, order, host));
    if id :| id in order && r in Contribution(domains, id, host) {
      assert id in domains;
    }
    if Registered(domains, host, r) {
      var id :| id in domains && domains[id].hostname == host && r in domains[id].routes;
      assert id in order && r in Contribution(domains, id, host);
    }
  }

  lemma MatchingComparable(p: string, q: string, s: string)
    requires MatchesPrefix(s, p) && MatchesPrefix(s, q) && !Before(q, p)
    ensures |q| <= |p|
  {
    assert p <= s && q <= s;
    if |q| > |p| {
      assert q == p + q[|p|..];
      ByteLenConcat(p, q[|p|..]);
      ByteLenBounds(q[|p|..]);
    }
  }

  /** The first hit of a sorted list is a longest one. */
  lemma {:induction false} FirstMatchIsLongest(list: seq<Route>, s: string, q: Route)
    requires Sorted(PathOf, list) && q in list && MatchesPrefix(s, q.path)
    ensures FirstMatch(list, s).Some? && |q.path| <= |FirstMatch(list, s).value.path|
  {
    var rest := list[1..];
    assert list == [list[0]] + rest;
    if MatchesPrefix(s, list[0].path) {
      if q != list[0] {
        var j :| 0 <= j < |rest| && rest[j] == q;
        assert !Before(PathOf(list[j + 1]), PathOf(list[0]));
        MatchingComparable(list[0].path, q.path, s);
      }
    } else {
      assert forall i :: 0 <= i < |rest| ==> rest[i] == list[i + 1];
      FirstMatchIsLongest(rest, s, q);
    }
  }

  /** The fast lookup against the slow one: the sorted index answers with a longest route among all
      the stripped routes registered for the host, and finds one whenever there is one. */
  lemma LookupIsLongest(index: Index, domains: Domains, order: seq<string>, host: string, s: string)
    requires Indexes(index, domains, order)
    ensures var found := FirstMatch(At(index, host), s);
            && (found.None? ==> forall q :: Registered(domains, host, q) ==> !MatchesPrefix(s, q.path))
            && (found.Some? ==> Registered(domains, host, found.value) && MatchesPrefix(s, found.value.path))
            && (found.Some? ==>
                  forall q :: Registered(domains, host, q) && MatchesPrefix(s, q.path) ==>
                      |q.path| <= |found.value.path|)
  {
    var list := At(index, host);
    var found := FirstMatch(list, s);
    if found.Some? { IndexMembers(index, domains, order, host, found.value); }
    forall q | Registered(domains, host, q) && MatchesPrefix(s, q.path)
      ensures found.Some? && |q.path| <= |found.value.path|
    {
      IndexMembers(index, domains, order, host, q);
      FirstMatchIsLongest(list, s, q);
    }
  }

  // ---- one domain per host ---------------------------------------------------------------------

  ghost predicate HostsDistinct(domains: Domains) {
    forall a, b :: a in domains && b in domains && domains[a].hostname == domains[b].hostname ==> a == b
  }

  lemma {:induction false} CollectOwn(domains: Domains, order: seq<string>, id: string)
    requires HostsDistinct(domains) && id in domains && Distinct(order)
    ensures Collect(domains, order, domains[id].hostname) == if id in order then domains[id].routes else []
  {
    if order != [] {
      var last := order[|order| - 1];
      var init := order[..|order| - 1];
      assert order == init + [last];
      CollectOwn(domains, init, id);
      if last == id {
        assert id !in init;
      }
    }
  }

  /** With distinct host names, a host's list is its domain's routes, sorted. */
  lemma OwnIndex(index: Index, domains: Domains, order: seq<string>, id: string)
    requires Indexes(index, domains, order) && HostsDistinct(domains) && id in domains
    requires KeysDistinct(PathOf, domains[id].routes)
    ensures At(index, domains[id].hostname) == Sort(PathOf, domains[id].routes)
  {
    var own := domains[id].routes;
    CollectOwn(domains, order, id);
    SortSorted(PathOf, own);
    SortMultiset(PathOf, own);
    PathsDistinct(own);
    KeysDistinctPermuted(PathOf, own, Sort(PathOf, own));
    SortedUnique(PathOf, Sort(PathOf, own), At(index, domains[id].hostname));
  }

  lemma {:induction false} SortedPaths(routes: seq<Route>)
    requires Sorted(PathOf, routes)
    ensures NoPrefixFirst(Paths(routes))
  {
    forall i, j | 0 <= i < j < |routes| ensures !Before(Paths(routes)[j], Paths(routes)[i]) {
      assert !Before(PathOf(routes[j]), PathOf(routes[i]));
    }
    GoOrderPutsLongerFirst(Paths(routes));
  }

  lemma {:induction false} StrippedDistinct(routes: seq<Route>)
    requires KeysDistinct(PathOf, routes)
    ensures KeysDistinct(PathOf, Stripped(routes))
  {
    if routes != [] {
      var init, last := routes[..|routes| - 1], routes[|routes| - 1];
      StrippedDistinct(init);
      StrippedMembers(init);
      var s := Stripped(init);
      forall i | 0 <= i < |s| ensures PathOf(s[i]) != PathOf(last) {
        assert s[i] in init;
        var k :| 0 <= k < |init| && init[k] == s[i];
        assert PathOf(routes[k]) != PathOf(routes[|routes| - 1]);
      }
    }
  }

  lemma SortedIsIndex(stripped: seq<Route>, routes: seq<Route>)
    requires KeysDistinct(PathOf, stripped)
    requires forall r :: r in stripped <==> r in routes && r.strip
    ensures IsIndex(Sort(PathOf, stripped), routes)
  {
    var index := Sort(PathOf, stripped);
    SortSorted(PathOf, stripped);
    SortMultiset(PathOf, stripped);
    PathsDistinct(stripped);
    KeysDistinctPermuted(PathOf, stripped, index);
    SortedPaths(index);
    forall r ensures r in index <==> r in stripped {
      assert r in index <==> r in multiset(index);
      assert r in stripped <==> r in multiset(stripped);
    }
  }

  /** After a commit of a route set, the host's list is an index of that set in the sense of the
      dispatch theorem. */
  lemma CommittedIndex(index: Index, domains: Domains, order: seq<string>, id: string, routes: seq<Route>)
    requires Indexes(index, domains, order) && HostsDistinct(domains) && id in domains
    requires KeysDistinct(PathOf, routes) && domains[id].routes == Stripped(routes)
    ensures IsIndex(At(index, domains[id].hostname), routes)
  {
    StrippedDistinct(routes);
    StrippedMembers(routes);
    OwnIndex(index, domains, order, id);
    SortedIsIndex(Stripped(routes), routes);
  }

  /** Normalised routes, compiled and committed, satisfy what the dispatch theorem asks for. */
  lemma ValidRoutesDispatch(routes: seq<Route>)
    requires ValidRoutes(routes)
    ensures RouteSet(routes) && NoPrefixFirst(Paths(routes))
  {
    SortedPaths(routes);
  }

  /** What ListRoutes returns for a stored list. */
  ghost predicate ListedAs(listed: seq<Route>, routes: seq<Route>) {
    multiset(listed) == multiset(routes) && SqlSorted(Paths(listed))
  }

  /** SQLite's listing of a route set is the same set, and may be compiled as it stands. */
  lemma ListedIsRouteSet(listed: seq<Route>, routes: seq<Route>)
    requires RouteSet(routes) && ListedAs(listed, routes)
    ensures RouteSet(listed) && NoPrefixFirst(Paths(listed)) && forall r :: r in listed <==> r in routes
  {
    SqlOrderPutsLongerFirst(Paths(listed));
    PathsDistinct(routes);
    KeysDistinctPermuted(PathOf, routes, listed);
    forall r ensures r in listed <==> r in routes { assert r in multiset(listed) <==> r in multiset(routes); }
  }

  /** The rules compiled from SQLite's listing, as a rollback pushes them, deliver every request as the
      rules compiled from the normalised list do. */
  lemma ListedDeliversAlike(addr: Host, listed: seq<Route>, routes: seq<Route>, index: seq<Route>, s: string)
    requires ValidRoutes(routes) && ListedAs(listed, routes)
    ensures Deliver(addr, Rules(addr, listed), index, s) == Deliver(addr, Rules(addr, routes), index, s)
  {
    ValidRoutesDispatch(routes);
    ListedIsRouteSet(listed, routes);
    if NewlineFree(s) {
      OrderDoesNotMatter(listed, routes, s);
      FirstRulePlain(addr, listed, s);
      FirstRulePlain(addr, routes, s);
    } else {
      var root :| root in routes && root.path == "/";
      FirstRuleNewline(addr, listed, s, root);
      FirstRuleNewline(addr, routes, s, root);
    }
  }

  /** An entry of stripped routes that the proxy takes. */
  ghost predicate EntryAllowed(addr: Host, snap: DomainSnapshot) {
    Allowed(addr, snap.hostname, snap.routes) && forall r :: r in snap.routes ==> r.strip
  }

  /** What the proxy takes: a host name, and stripped routes whose origins have a scheme and a host and do not
      name the proxy's own port on this machine. */
  lemma AllowedIff(addr: Host, hostname: string, routes: seq<Route>)
    requires ValidAddr(addr)
    ensures Allowed(addr, hostname, routes) <==>
            && hostname != ""
            && forall r :: r in routes && r.strip ==>
                 && r.origin.scheme != "" && r.origin.host != NoHost
                 && !(&& r.origin.host.WithPort? && r.origin.host.port == addr.port
                      && (|| r.origin.host.name == Localhost
                          || (r.origin.host.name.Ip? && |r.origin.host.name.bytes| == 4
                              && r.origin.host.name.bytes[0] == 127)
                          || r.origin.host.name == Ip([0, 0, 0, 0, 0, 0, 0, 0, 0, 0, 0, 0, 0, 0, 0, 1])))
  {
    forall r | r in routes
      ensures OriginAllowed(addr, r) <==>
              r.origin.scheme != "" && r.origin.host != NoHost && !SameEndpoint(r.origin.host, addr)
    {
    }
    forall r | r in routes { LoopsBackIff(r.origin.host, addr); }
  }

  /** Whatever was committed, rolled back or prepared, a request that the proxy forwards does not come back to
      it. */
  lemma ProxyNeverLoops(index: Index, domains: Domains, order: seq<string>, addr: Host, host: string, s: string)
    requires Indexes(index, domains, order)
    requires forall id :: id in domains ==> EntryAllowed(addr, domains[id])
    ensures var d := ProxyDelivers(At(index, host), s);
            d.Delivered? ==> !SameEndpoint(d.target.host, addr) && d.path[..1] == "/" && d.strippedPrefix.Some?
                             && (s == d.strippedPrefix.value || s == d.strippedPrefix.value + d.path)
  {
    var found := FirstMatch(At(index, host), s);
    if found.Some? {
      IndexMembers(index, domains, order, host, found.value);
      StripKeepsTheRest(found.value.path, s);
    }
  }

  /** Every run of operations leaves only routes the proxy takes. */
  lemma {:induction false} RunKeepsAllowed(addr: Host, ops: seq<Op>, domains: Domains)
    requires forall id :: id in domains ==> EntryAllowed(addr, domains[id])
    ensures forall id :: id in Run(addr, ops, domains) ==> EntryAllowed(addr, Run(addr, ops, domains)[id])
  {
    if ops != [] {
      var last := ops[|ops| - 1];
      RunKeepsAllowed(addr, ops[..|ops| - 1], domains);
      if last.Replace? { StrippedMembers(last.routes); }
    }
  }

  /** The path "" (accepted from a raw "//") is never chosen: the root outranks it. */
  lemma EmptyPathIsDead(routes: seq<Route>, s: string)
    requires RouteSet(routes)
    ensures Longest(routes, s).Some? && Longest(routes, s).value.path != ""
  {
    var root :| root in routes && root.path == "/";
    assert Accepts(root.path, s);
  }

  // ---- runs of operations ------------------------------------------------------------------------

  /** Commit, rollback and prepare are all Replace, prepare with the merged set. */
  datatype Op = Replace(id: string, hostname: string, routes: seq<Route>) | Remove(id: string)

  ghost function Apply(addr: Host, op: Op, domains: Domains): Domains {
    match op
    case Replace(id, hostname, routes) =>
      if Allowed(addr, hostname, routes) then domains[id := DomainSnapshot(hostname, Stripped(routes))] else domains
    case Remove(id) => domains - {id}
  }

  ghost function Run(addr: Host, ops: seq<Op>, domains: Domains): Domains {
    if ops == [] then domains
    else Apply(addr, ops[|ops| - 1], Run(addr, ops[..|ops| - 1], domains))
  }

  /** The operations that name a domain. */
  function About(ops: seq<Op>, id: string): seq<Op> {
    if ops == [] then []
    else About(ops[..|ops| - 1], id) + (if ops[|ops| - 1].id == id then [ops[|ops| - 1]] else [])
  }

  ghost predicate SameAt(a: Domains, b: Domains, id: string) {
    (id in a <==> id in b) && (id in a ==> a[id] == b[id])
  }

  /** What a domain holds after any run depends on that domain's own operations alone. */
  lemma {:induction false} DomainsAreIndependent(addr: Host, ops: seq<Op>, domains: Domains, id: string)
    ensures SameAt(Run(addr, ops, domains), Run(addr, About(ops, id), domains), id)
  {
    if ops != [] {
      var init, last := ops[..|ops| - 1], ops[|ops| - 1];
      DomainsAreIndependent(addr, init, domains, id);
      if last.id == id {
        var mine := About(ops, id);
        assert mine == About(init, id) + [last];
        assert mine[..|mine| - 1] == About(init, id);
      } else {
        assert About(ops, id) == About(init, id);
      }
    }
  }

  /** So a request is answered after the whole run as after its domain's operations alone, whatever
      was done to other hosts. */
  lemma LookupIsIndependent(addr: Host, ops: seq<Op>, domains: Domains, id: string, s: string,
                            index: Index, order: seq<string>, own: Index, ownOrder: seq<string>)
    requires Indexes(index, Run(addr, ops, domains), order)
    requires Indexes(own, Run(addr, About(ops, id), domains), ownOrder)
    requires HostsDistinct(Run(addr, ops, domains)) && HostsDistinct(Run(addr, About(ops, id), domains))
    requires id in Run(addr, ops, domains) && KeysDistinct(PathOf, Run(addr, ops, domains)[id].routes)
    ensures id in Run(addr, About(ops, id), domains)
    ensures var host := Run(addr, ops, domains)[id].hostname;
            ProxyDelivers(At(index, host), s) == ProxyDelivers(At(own, host), s)
  {
    DomainsAreIndependent(addr, ops, domains, id);
    OwnIndex(index, Run(addr, ops, domains), order, id);
    OwnIndex(own, Run(addr, About(ops, id), domains), ownOrder, id);
  }

  // ---- a direct route back to the proxy ----------------------------------------------------------

  /** A direct route whose origin is the proxy passes the normaliser and the proxy's own check, which looks
      at stripped routes only, yet its requests end in a 404. */
  lemma DirectLoopIsNotFound(host: string)
    requires host != ""
    ensures var addr := WithPort(Ip([127, 0, 0, 1]), "20080");
            var input := RouteInput(Utf8("/"), Some(ProxyUrl(addr)), false);
            var root := Route("r", "d", "/", ProxyUrl(addr), false, 0, 0);
            && ValidAddr(addr) && Accepted([input], false) && NormalizeOne(input, false) == Ok(CoreOf(root))
            && Allowed(addr, host, [root])
            && Deliver(addr, Rules(addr, [root]), [], "/x") == NotFound
            && Promised([root], "/x") == Delivered(ProxyUrl(addr), "/x", None)
  {
    var addr := WithPort(Ip([127, 0, 0, 1]), "20080");
    var root := Route("r", "d", "/", ProxyUrl(addr), false, 0, 0);
    LoneRootIsAccepted(ProxyUrl(addr));
    assert Rules(addr, [root]) == [RuleOf(addr, root)];
    assert FirstRule([RuleOf(addr, root)], "/x") == Some(RuleOf(addr, root));
    assert Longest([root], "/x") == Some(root) by { assert [root][1..] == []; }
  }

  lemma LoneRootIsAccepted(u: Url)
    requires NormalizeOrigin(Some(u), false, false) == Ok(u)
    ensures var input := RouteInput(Utf8("/"), Some(u), false);
            Accepted([input], false) && NormalizeOne(input, false) == Ok(Core("/", u, false))
  {
    assert ByteLen("/") == 1 by { assert "/"[1..] == ""; }
    assert TrimSpace("/") == "/";
    var cores := InputCores([RouteInput(Utf8("/"), Some(u), false)], false);
    assert CorePaths(cores)[0] == "/";
  }
}
