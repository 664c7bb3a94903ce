/** The loopback proxy: which stripped routes it holds for each domain, and the sorted index it swaps
    in for its request handler. Host names are the results of normalizeHostname. */
module IngressProxy {
  import opened Prelude
  import opened PathOrder
  import opened RoutePath
  import opened Routes
  import opened Dispatch

  datatype DomainSnapshot = DomainSnapshot(hostname: string, routes: seq<Route>)

  type Index = map<string, seq<Route>>

  function At(index: Index, host: string): seq<Route> {
    if host in index then index[host] else []
  }

  function Stripped(routes: seq<Route>): seq<Route> {
    if routes == [] then []
    else
      var last := routes[|routes| - 1];
      Stripped(routes[..|routes| - 1]) + (if last.strip then [last] else [])
  }

  lemma {:induction false} StrippedMembers(routes: seq<Route>)
    ensures forall x :: x in Stripped(routes) <==> x in routes && x.strip
  {
    if routes != [] {
      var last := routes[|routes| - 1];
      StrippedMembers(routes[..|routes| - 1]);
      assert routes == routes[..|routes| - 1] + [last];
    }
  }

  lemma StrippedSnoc(routes: seq<Route>, i: nat)
    requires i < |routes|
    ensures Stripped(routes[..i + 1]) == Stripped(routes[..i]) + (if routes[i].strip then [routes[i]] else [])
    ensures StrippedPaths(routes[..i + 1])
         == StrippedPaths(routes[..i]) + (if routes[i].strip then {routes[i].path} else {})
  {
    assert routes[..i + 1][..i] == routes[..i];
    assert routes[..i + 1] == routes[..i] + [routes[i]];
  }

  function StrippedPaths(routes: seq<Route>): set<string> {
    set r | r in routes && r.strip :: r.path
  }

  /** The old stripped routes that no new stripped route replaces. */
  function OldOnly(oldRoutes: seq<Route>, taken: set<string>): seq<Route> {
    if oldRoutes == [] then []
    else
      var last := oldRoutes[|oldRoutes| - 1];
      OldOnly(oldRoutes[..|oldRoutes| - 1], taken) + (if last.strip && last.path !in taken then [last] else [])
  }

  lemma {:induction false} OldOnlyMembers(oldRoutes: seq<Route>, taken: set<string>)
    ensures forall x :: x in OldOnly(oldRoutes, taken) <==> x in oldRoutes && x.strip && x.path !in taken
  {
    if oldRoutes != [] {
      var last := oldRoutes[|oldRoutes| - 1];
      OldOnlyMembers(oldRoutes[..|oldRoutes| - 1], taken);
      assert oldRoutes == oldRoutes[..|oldRoutes| - 1] + [last];
    }
  }

  lemma OldOnlySnoc(oldRoutes: seq<Route>, taken: set<string>, i: nat)
    requires i < |oldRoutes|
    ensures OldOnly(oldRoutes[..i + 1], taken)
         == OldOnly(oldRoutes[..i], taken) + (if oldRoutes[i].strip && oldRoutes[i].path !in taken
             then [oldRoutes[i]] else [])
  {
    assert oldRoutes[..i + 1][..i] == oldRoutes[..i];
  }

  /** The transition set: new stripped routes first, then old ones on other paths. */
  function Merged(oldRoutes: seq<Route>, newRoutes: seq<Route>): seq<Route> {
    Stripped(newRoutes) + OldOnly(oldRoutes, StrippedPaths(newRoutes))
  }

  predicate OriginAllowed(addr: Host, r: Route) {
    r.origin.scheme != "" && !r.origin.host.NoHost? && !SameEndpoint(r.origin.host, addr)
  }

  /** What replaceDomain takes. */
  predicate Allowed(addr: Host, hostname: string, routes: seq<Route>) {
    hostname != "" && forall r :: r in routes && r.strip ==> OriginAllowed(addr, r)
  }

  // ---- what an index of a set of domains is ------------------------------------------------------

  type Domains = map<string, DomainSnapshot>

  ghost predicate Enumerates(order: seq<string>, ids: set<string>) {
    Distinct(order) && forall id :: id in order <==> id in ids
  }

  /** The routes of a host, domain by domain in the given order. */
  function Collect(domains: Domains, order: seq<string>, host: string): seq<Route> {
    if order == [] then []
    else
      var last := order[|order| - 1];
      Collect(domains, order[..|order| - 1], host)
      + Contribution(domains, last, host)
  }

  /** The routes domain id contributes to host. */
  function Contribution(domains: Domains, id: string, host: string): seq<Route> {
    if id in domains && domains[id].hostname == host then domains[id].routes else []
  }

  /** Each host's list is sorted and holds its domains' routes, each as often as they do. */
  ghost predicate Indexes(index: Index, domains: Domains, order: seq<string>) {
    && Enumerates(order, domains.Keys)
    && forall host ::
         && Sorted(PathOf, At(index, host))
         && multiset(At(index, host)) == multiset(Collect(domains, order, host))
  }

  class ProxyServer {
    const addr: Host
    var byDomain: Domains
    var routes: Index
    /** The order in which the last rebuild happened to walk byDomain. */
    ghost var order: seq<string>

    ghost predicate Valid()
      reads this
    {
      Indexes(routes, byDomain, order)
    }

    constructor (addr: Host)
      ensures Valid() && byDomain == map[] && routes == map[] && this.addr == addr
    {
      this.addr := addr;
      byDomain := map[];
      routes := map[];
      order := [];
    }

    method PrepareDomain(domainId: string, hostname: string, oldRoutes: seq<Route>, newRoutes: seq<Route>)
      returns (ok: bool)
      requires Valid()
      modifies this
      ensures Valid()
      ensures ok <==> Allowed(addr, hostname, Merged(oldRoutes, newRoutes))
      ensures ok ==> byDomain == old(byDomain)[domainId := DomainSnapshot(hostname, Merged(oldRoutes, newRoutes))]
      ensures !ok ==> byDomain == old(byDomain) && routes == old(routes) && order == old(order)
    {
      var merged := MergeRoutes(oldRoutes, newRoutes);
      MergedIsStripped(oldRoutes, newRoutes);
      ok := ReplaceDomain(domainId, hostname, merged);
    }

    /** The two loops of PrepareDomain. */
    static method MergeRoutes(oldRoutes: seq<Route>, newRoutes: seq<Route>) returns (merged: seq<Route>)
      ensures merged == Merged(oldRoutes, newRoutes)
    {
      merged := [];
      var newStripped: set<string> := {};
      for i := 0 to |newRoutes|
        invariant merged == Stripped(newRoutes[..i]) && newStripped == StrippedPaths(newRoutes[..i])
      {
        StrippedSnoc(newRoutes, i);
        if newRoutes[i].strip {
          merged := merged + [newRoutes[i]];
          newStripped := newStripped + {newRoutes[i].path};
        }
      }
      assert newRoutes[..|newRoutes|] == newRoutes;
      for i := 0 to |oldRoutes|
        invariant merged == Stripped(newRoutes) + OldOnly(oldRoutes[..i], newStripped)
      {
        OldOnlySnoc(oldRoutes, newStripped, i);
        if !oldRoutes[i].strip {
          continue;
        }
        if oldRoutes[i].path !in newStripped {
          merged := merged + [oldRoutes[i]];
        }
      }
      assert oldRoutes[..|oldRoutes|] == oldRoutes;
    }

    method CommitDomain(domainId: string, hostname: string, newRoutes: seq<Route>) returns (ok: bool)
      requires Valid()
      modifies this
      ensures Valid()
      ensures ok <==> Allowed(addr, hostname, newRoutes)
      ensures ok ==> byDomain == old(byDomain)[domainId := DomainSnapshot(hostname, Stripped(newRoutes))]
      ensures !ok ==> byDomain == old(byDomain) && routes == old(routes) && order == old(order)
    {
      ok := ReplaceDomain(domainId, hostname, newRoutes);
    }

    method RollbackDomain(domainId: string, hostname: string, oldRoutes: seq<Route>) returns (ok: bool)
      requires Valid()
      modifies this
      ensures Valid()
      ensures ok <==> Allowed(addr, hostname, oldRoutes)
      ensures ok ==> byDomain == old(byDomain)[domainId := DomainSnapshot(hostname, Stripped(oldRoutes))]
      ensures !ok ==> byDomain == old(byDomain) && routes == old(routes) && order == old(order)
    {
      ok := ReplaceDomain(domainId, hostname, oldRoutes);
    }

    method RemoveDomain(domainId: string)
      modifies this
      ensures Valid() && byDomain == old(byDomain) - {domainId}
    {
      byDomain := byDomain - {domainId};
      RebuildLocked();
    }

    method ReplaceDomain(domainId: string, hostname: string, newRoutes: seq<Route>) returns (ok: bool)
      requires Valid()
      modifies this
      ensures Valid()
      ensures ok <==> Allowed(addr, hostname, newRoutes)
      ensures ok ==> byDomain == old(byDomain)[domainId := DomainSnapshot(hostname, Stripped(newRoutes))]
      ensures !ok ==> byDomain == old(byDomain) && routes == old(routes) && order == old(order)
    {
      if hostname == "" {
        return false;
      }
      var filtered := FilterRoutes(newRoutes);
      if filtered.None? {
        return false;
      }
      byDomain := byDomain[domainId := DomainSnapshot(hostname, filtered.value)];
      RebuildLocked();
      ok := true;
    }

    /** The validation loop of replaceDomain. */
    method FilterRoutes(newRoutes: seq<Route>) returns (r: Option<seq<Route>>)
      ensures r.Some? <==> forall x :: x in newRoutes && x.strip ==> OriginAllowed(addr, x)
      ensures r.Some? ==> r.value == Stripped(newRoutes)
    {
      var filtered: seq<Route> := [];
      for i := 0 to |newRoutes|
        invariant filtered == Stripped(newRoutes[..i])
        invariant forall x :: x in newRoutes[..i] && x.strip ==> OriginAllowed(addr, x)
      {
        var route := newRoutes[i];
        StrippedSnoc(newRoutes, i);
        assert newRoutes[..i + 1] == newRoutes[..i] + [route];
        if !route.strip {
          continue;
        }
        if route.origin.scheme == "" || route.origin.host.NoHost? {
          return None;
        }
        if SameEndpoint(route.origin.host, addr) {
          return None;
        }
        filtered := filtered + [route];
      }
      assert newRoutes[..|newRoutes|] == newRoutes;
      return Some(filtered);
    }

    method RebuildLocked()
      modifies this`routes, this`order
      ensures Valid()
    {
      var next: Index := map[];
      var pending := byDomain.Keys;
      ghost var walked: seq<string> := [];
      while pending != {}
        invariant pending <= byDomain.Keys && Enumerates(walked, byDomain.Keys - pending)
        invariant forall host :: At(next, host) == Collect(byDomain, walked, host)
        decreases |pending|
      {
        var domainId :| domainId in pending;
        next := AppendRoutes(next, byDomain[domainId].hostname, byDomain[domainId].routes);
        CollectSnoc(byDomain, walked, domainId);
        WalkStep(walked, byDomain.Keys, pending, domainId);
        pending := pending - {domainId};
        walked := walked + [domainId];
      }
      assert byDomain.Keys - {} == byDomain.Keys;
      next := SortHosts(next);
      routes := next;
      order := walked;
    }

    /** The inner append loop for one domain. */
    static method AppendRoutes(index: Index, host: string, newRoutes: seq<Route>) returns (next: Index)
      ensures forall h :: At(next, h) == At(index, h) + (if h == host then newRoutes else [])
    {
      next := index;
      for i := 0 to |newRoutes|
        invariant next == if i == 0 then index else index[host := At(index, host) + newRoutes[..i]]
      {
        assert At(index, host) + newRoutes[..i] + [newRoutes[i]] == At(index, host) + newRoutes[..i + 1];
        assert i == 0 ==> At(index, host) + newRoutes[..i] == At(index, host);
        next := next[host := At(next, host) + [newRoutes[i]]];
      }
      assert newRoutes[..|newRoutes|] == newRoutes;
      assert newRoutes == [] ==> forall h :: At(next, h) == At(index, h) + (if h == host then newRoutes else []);
    }

    /** The sort.Slice loop over all hosts. */
    static method SortHosts(index: Index) returns (next: Index)
      ensures forall h :: Sorted(PathOf, At(next, h)) && multiset(At(next, h)) == multiset(At(index, h))
    {
      next := index;
      var pending := index.Keys;
      while pending != {}
        invariant pending <= index.Keys && next.Keys == index.Keys
        invariant forall h :: h in pending ==> next[h] == index[h]
        invariant forall h :: h !in pending ==>
                    Sorted(PathOf, At(next, h)) && multiset(At(next, h)) == multiset(At(index, h))
        decreases |pending|
      {
        var host :| host in pending;
        SortSorted(PathOf, next[host]);
        SortMultiset(PathOf, next[host]);
        next := next[host := Sort(PathOf, next[host])];
        pending := pending - {host};
      }
    }

    /** ServeHTTP as far as routing goes. */
    method ServeHTTP(host: string, s: string) returns (d: Delivery)
      ensures d == ProxyDelivers(At(routes, host), s)
    {
      var index := At(routes, host);
      for i := 0 to |index|
        invariant FirstMatch(index, s) == FirstMatch(index[i..], s)
      {
        if !MatchesPrefix(s, index[i].path) {
          continue;
        }
        var path := if index[i].path <= s then s[|index[i].path|..] else s;
        if path == "" {
          path := "/";
        }
        return Delivered(index[i].origin, path, Some(index[i].path));
      }
      return NotFound;
    }
  }

  lemma CollectSnoc(domains: Domains, order: seq<string>, id: string)
    ensures forall host :: Collect(domains, order + [id], host) == Collect(domains, order,
            host) + Contribution(domains, id, host)
  {
    var longer := order + [id];
    assert longer[..|longer| - 1] == order;
  }

  lemma WalkStep(walked: seq<string>, ids: set<string>, pending: set<string>, id: string)
    requires pending <= ids && id in pending && Enumerates(walked, ids - pending)
    ensures Enumerates(walked + [id], ids - (pending - {id}))
  {
  }

  lemma {:induction false} StrippedOfStripped(routes: seq<Route>)
    requires forall i :: 0 <= i < |routes| ==> routes[i].strip
    ensures Stripped(routes) == routes
  {
    if routes != [] {
      StrippedOfStripped(routes[..|routes| - 1]);
      assert routes == routes[..|routes| - 1] + [routes[|routes| - 1]];
    }
  }

  lemma MergedIsStripped(oldRoutes: seq<Route>, newRoutes: seq<Route>)
    ensures Stripped(Merged(oldRoutes, newRoutes)) == Merged(oldRoutes, newRoutes)
  {
    StrippedMembers(newRoutes);
    OldOnlyMembers(oldRoutes, StrippedPaths(newRoutes));
    var merged := Merged(oldRoutes, newRoutes);
    forall i | 0 <= i < |merged| ensures merged[i].strip {
      assert merged[i] in Stripped(newRoutes) || merged[i] in OldOnly(oldRoutes, StrippedPaths(newRoutes));
    }
    StrippedOfStripped(merged);
  }
}
