/** What SQLite and the proxy hold for all domains together, and the invariant every mutation keeps. */
module ServiceState {
  import opened PathOrder
  import opened RoutePath
  import opened Routes
  import opened RouteLaws
  import opened Dispatch
  import opened IngressProxy
  import opened ProxyLaws
  import opened SagaSpec
  import opened SagaLaws
  import PortAlloc

  datatype Status = Pending | Active | Errored | Stopped

  datatype Row = Row(hostname: string, zoneId: string, tunnelId: string, recordId: string, origin: Url,
                     status: Status, port: int, routes: seq<Route>, updated: int)

  type Rows = map<string, Row>

  function Failed(row: Row): Row { row.(status := Errored) }

  /** The routes came through the normaliser as the routes of domain id. */
  ghost predicate Normalised(id: string, routes: seq<Route>) {
    exists inputs, now, allowPath, ids ::
      Accepted(inputs, allowPath) && routes == NormalRoutes(id, inputs, now, allowPath, ids)
  }

  lemma AcceptedIsNormalised(id: string, inputs: seq<RouteInput>, now: int, ids: nat -> string)
    requires Accepted(inputs, false)
    ensures Normalised(id, NormalRoutes(id, inputs, now, false, ids))
  {
  }

  lemma NormalisedIsValid(id: string, routes: seq<Route>)
    requires Normalised(id, routes)
    ensures ValidRoutes(routes) && RouteSet(routes)
  {
    var inputs, now, allowPath, ids :|
      Accepted(inputs, allowPath) && routes == NormalRoutes(id, inputs, now, allowPath, ids);
    NormalRoutesAreValid(id, inputs, now, allowPath, ids);
    ValidRoutesDispatch(routes);
  }

  /** The origin column shows the origin of the root route, as the legacy projection promises. */
  ghost predicate RootOrigin(routes: seq<Route>, origin: Url) { Core("/", origin, false) in Cores(routes) }

  /** The normaliser's default origin is that of the root it returns. */
  lemma DefaultIsRootOrigin(id: string, inputs: seq<RouteInput>, now: int, ids: nat -> string, origin: Url)
    requires HasRoot(inputs, false, origin)
    ensures RootOrigin(NormalRoutes(id, inputs, now, false, ids), origin)
  {
    NormalCores(id, inputs, now, false, ids);
    SortMultiset(PathOfCore, InputCores(inputs, false));
    assert Core("/", origin, false) in multiset(InputCores(inputs, false));
    assert Core("/", origin, false) in multiset(Cores(NormalRoutes(id, inputs, now, false, ids)));
  }

  /** A stored row: normalised routes that the proxy takes, the root's origin, and a port of the range. */
  ghost predicate RowOk(addr: Host, start: int, end: int, id: string, row: Row) {
    && Normalised(id, row.routes) && Allowed(addr, row.hostname, row.routes)
    && RootOrigin(row.routes, row.origin) && start <= row.port <= end
  }

  /** There is only one origin a sound row can show. */
  lemma RootOriginIsUnique(id: string, routes: seq<Route>, a: Url, b: Url)
    requires Normalised(id, routes) && RootOrigin(routes, a) && RootOrigin(routes, b)
    ensures a == b
  {
    NormalisedIsValid(id, routes);
    OneRoot(routes, a, b);
  }

  lemma OneRoot(routes: seq<Route>, a: Url, b: Url)
    requires KeysDistinct(PathOf, routes) && RootOrigin(routes, a) && RootOrigin(routes, b)
    ensures a == b
  {
    var i := RootAt(routes, a);
    var j := RootAt(routes, b);
    assert PathOf(routes[i]) == PathOf(routes[j]);
  }

  lemma RootAt(routes: seq<Route>, origin: Url) returns (i: nat)
    requires RootOrigin(routes, origin)
    ensures i < |routes| && routes[i].path == "/" && routes[i].origin == origin
  {
    i :| 0 <= i < |routes| && Cores(routes)[i] == Core("/", origin, false);
  }

  /** Two rows share neither hostname nor tunnel nor port. */
  predicate Apart(a: Row, b: Row) { a.hostname != b.hostname && a.tunnelId != b.tunnelId && a.port != b.port }

  ghost predicate RowsSound(addr: Host, start: int, end: int, rows: Rows) {
    && (forall id :: id in rows ==> RowOk(addr, start, end, id, rows[id]))
    && (forall a, b :: a in rows && b in rows && a != b ==> Apart(rows[a], rows[b]))
  }

  /** A proxy entry belongs to a row and holds stripped routes on distinct paths. */
  ghost predicate EntryOk(rows: Rows, id: string, snap: DomainSnapshot) {
    && id in rows && snap.hostname == rows[id].hostname
    && KeysDistinct(PathOf, snap.routes) && (forall r :: r in snap.routes ==> r.strip)
  }

  ghost predicate ProxySound(rows: Rows, domains: Domains) {
    forall id :: id in domains ==> EntryOk(rows, id, domains[id])
  }

  /** The invariant of the service. */
  ghost predicate StateSound(addr: Host, start: int, end: int, rows: Rows, domains: Domains) {
    RowsSound(addr, start, end, rows) && ProxySound(rows, domains)
  }

  /** It gives what the proxy's theorems ask for. */
  lemma SoundHostsDistinct(addr: Host, start: int, end: int, rows: Rows, domains: Domains)
    requires StateSound(addr, start, end, rows, domains)
    ensures HostsDistinct(domains)
  {
    forall a, b | a in domains && b in domains && domains[a].hostname == domains[b].hostname ensures a == b {
      assert EntryOk(rows, a, domains[a]) && EntryOk(rows, b, domains[b]);
      assert a != b ==> Apart(rows[a], rows[b]);
    }
  }

  /** And what the port results say. */
  lemma SoundPorts(addr: Host, start: int, end: int, rows: Rows)
    requires RowsSound(addr, start, end, rows)
    ensures PortAlloc.PortsOk(start, end, map id | id in rows :: rows[id].port)
  {
    forall id | id in rows ensures start <= rows[id].port <= end { assert RowOk(addr, start, end, id, rows[id]); }
    forall a, b | a in rows && b in rows && a != b ensures rows[a].port != rows[b].port {
      assert Apart(rows[a], rows[b]);
    }
  }

  // ---- rows --------------------------------------------------------------------------------------

  /** A row may be stored under id: sound in itself and apart from the other rows. */
  ghost predicate Storable(addr: Host, start: int, end: int, rows: Rows, id: string, row: Row) {
    RowOk(addr, start, end, id, row) && forall other :: other in rows && other != id ==> Apart(rows[other], row)
  }

  lemma StoreKeepsRows(addr: Host, start: int, end: int, rows: Rows, id: string, row: Row)
    requires RowsSound(addr, start, end, rows) && Storable(addr, start, end, rows, id, row)
    ensures RowsSound(addr, start, end, rows[id := row])
  {
    StoreKeepsApart(rows, id, row);
    var after := rows[id := row];
    forall x | x in after ensures RowOk(addr, start, end, x, after[x]) {
      if x != id { assert RowOk(addr, start, end, x, rows[x]); }
    }
  }

  lemma StoreKeepsApart(rows: Rows, id: string, row: Row)
    requires forall a, b :: a in rows && b in rows && a != b ==> Apart(rows[a], rows[b])
    requires forall other :: other in rows && other != id ==> Apart(rows[other], row)
    ensures var after := rows[id := row];
            forall a, b :: a in after && b in after && a != b ==> Apart(after[a], after[b])
  {
    var after := rows[id := row];
    forall a, b | a in after && b in after && a != b ensures Apart(after[a], after[b]) {
      if a != id && b != id { assert Apart(rows[a], rows[b]); }
    }
  }

  lemma RemovalKeepsRows(addr: Host, start: int, end: int, rows: Rows, id: string)
    requires RowsSound(addr, start, end, rows)
    ensures RowsSound(addr, start, end, rows - {id})
  {
    var after := rows - {id};
    forall x | x in after ensures RowOk(addr, start, end, x, after[x]) { assert RowOk(addr, start, end, x, rows[x]); }
    forall a, b | a in after && b in after && a != b ensures Apart(after[a], after[b]) {
      assert Apart(rows[a], rows[b]);
    }
  }

  /** after has the same rows but for their status. */
  predicate OnlyStatus(rows: Rows, after: Rows) {
    after.Keys == rows.Keys && forall id :: id in rows ==> after[id] == rows[id].(status := after[id].status)
  }

  lemma StatusKeepsRows(addr: Host, start: int, end: int, rows: Rows, after: Rows)
    requires RowsSound(addr, start, end, rows) && OnlyStatus(rows, after)
    ensures RowsSound(addr, start, end, after)
  {
    forall x | x in after ensures RowOk(addr, start, end, x, after[x]) { assert RowOk(addr, start, end, x, rows[x]); }
    forall a, b | a in after && b in after && a != b ensures Apart(after[a], after[b]) {
      assert Apart(rows[a], rows[b]);
    }
  }

  /** New routes on an existing row. */
  lemma RerouteIsStorable(addr: Host, start: int, end: int, rows: Rows, id: string, row: Row)
    requires RowsSound(addr, start, end, rows) && id in rows
    requires row == rows[id].(origin := row.origin, routes := row.routes, updated := row.updated)
    requires Normalised(id, row.routes) && Allowed(addr, row.hostname, row.routes) && RootOrigin(row.routes, row.origin)
    ensures Storable(addr, start, end, rows, id, row)
  {
    assert RowOk(addr, start, end, id, rows[id]);
    forall other | other in rows && other != id ensures Apart(rows[other], row) { assert Apart(rows[other], rows[id]); }
  }

  // ---- the proxy -----------------------------------------------------------------------------------

  /** The rows still name the same hosts. */
  predicate SameHosts(rows: Rows, after: Rows) {
    forall id :: id in rows ==> id in after && after[id].hostname == rows[id].hostname
  }

  lemma SameHostsKeepProxy(rows: Rows, after: Rows, domains: Domains)
    requires ProxySound(rows, domains) && SameHosts(rows, after)
    ensures ProxySound(after, domains)
  {
    forall id | id in domains ensures EntryOk(after, id, domains[id]) { assert EntryOk(rows, id, domains[id]); }
  }

  /** Only domain id's entry changes, if any. */
  lemma EntryKeepsProxy(rows: Rows, domains: Domains, after: Domains, id: string)
    requires ProxySound(rows, domains) && after - {id} == domains - {id}
    requires id in after ==> EntryOk(rows, id, after[id])
    ensures ProxySound(rows, after)
  {
    forall x | x in after ensures EntryOk(rows, x, after[x]) {
      if x != id {
        assert x in after - {id};
        assert x in domains && domains[x] == (domains - {id})[x] == after[x];
        assert EntryOk(rows, x, domains[x]);
      }
    }
  }

  lemma StrippedEntryOk(rows: Rows, id: string, routes: seq<Route>)
    requires id in rows && KeysDistinct(PathOf, routes)
    ensures EntryOk(rows, id, DomainSnapshot(rows[id].hostname, Stripped(routes)))
  {
    StrippedDistinct(routes);
    StrippedMembers(routes);
  }

  // ---- the mutations -------------------------------------------------------------------------------

  /** At most one tunnel's rules change; no tunnel comes or goes. */
  predicate OnlyRules(tunnels: map<string, seq<Rule>>, after: map<string, seq<Rule>>, tunnelId: string) {
    after - {tunnelId} == tunnels - {tunnelId} && after.Keys == tunnels.Keys
  }

  /** The tunnel of a row that has lost it does not come back. */
  predicate GoneStaysGone(rows: Rows, tunnels: set<string>, after: Rows, tunnelsAfter: set<string>) {
    forall id :: id in rows && id in after && rows[id].tunnelId !in tunnels ==>
      after[id].tunnelId == rows[id].tunnelId && after[id].tunnelId !in tunnelsAfter
  }

  lemma SameRowsStayGone(rows: Rows, tunnels: set<string>)
    ensures GoneStaysGone(rows, tunnels, rows, tunnels)
  {
  }

  lemma StatusStaysGone(rows: Rows, after: Rows, tunnels: set<string>)
    requires OnlyStatus(rows, after)
    ensures GoneStaysGone(rows, tunnels, after, tunnels)
  {
  }

  lemma ReroutedStaysGone(rows: Rows, id: string, row: Row, tunnels: set<string>)
    requires id in rows && row.tunnelId == rows[id].tunnelId
    ensures GoneStaysGone(rows, tunnels, rows[id := row], tunnels)
  {
  }

  /** When a replacement succeeds. */
  lemma ReachingSucceedsIff(addr: Host, hostname: string, id: string, listed: seq<Route>, newRoutes: seq<Route>,
                            o: Outcomes, tunnel: bool)
    requires Normalised(id, newRoutes)
    ensures SagaOutcome(addr, hostname, listed, newRoutes, Reaching(o, tunnel)) == Replaced <==>
            tunnel && Allowed(addr, hostname, Merged(listed, newRoutes)) && o.put && o.persist
  {
    NormalisedIsValid(id, newRoutes);
    SuccessConverges(addr, hostname, View([], [], []), listed, newRoutes, Reaching(o, tunnel));
  }

  /** The same for accepted inputs, with what else the replacement needs to know of them. */
  lemma ReplacementFacts(addr: Host, hostname: string, id: string, inputs: seq<RouteInput>, now: int,
                         ids: nat -> string, origin: Url, listed: seq<Route>, o: Outcomes, tunnel: bool)
    requires Accepted(inputs, false) && HasRoot(inputs, false, origin)
    ensures var newRoutes := NormalRoutes(id, inputs, now, false, ids);
            && Normalised(id, newRoutes) && RootOrigin(newRoutes, origin)
            && (SagaOutcome(addr, hostname, listed, newRoutes, Reaching(o, tunnel)) == Replaced <==>
                tunnel && Allowed(addr, hostname, Merged(listed, newRoutes)) && o.put && o.persist)
  {
    AcceptedIsNormalised(id, inputs, now, ids);
    DefaultIsRootOrigin(id, inputs, now, ids, origin);
    ReachingSucceedsIff(addr, hostname, id, listed, NormalRoutes(id, inputs, now, false, ids), o, tunnel);
  }

  /** The list registered for a domain. */
  function RoutesAt(domains: Domains, id: string): seq<Route> { if id in domains then domains[id].routes else [] }

  /** However a replacement ends, the proxy's list for the domain is a sound one. */
  lemma SagaEntry(addr: Host, hostname: string, v: View, oldRoutes: seq<Route>, newRoutes: seq<Route>, o: Outcomes)
    requires KeysDistinct(PathOf, v.proxy) && forall r :: r in v.proxy ==> r.strip
    requires KeysDistinct(PathOf, oldRoutes) && KeysDistinct(PathOf, newRoutes)
    ensures var end := SagaEnd(addr, hostname, v, oldRoutes, newRoutes, o);
            KeysDistinct(PathOf, end.proxy) && forall r :: r in end.proxy ==> r.strip
  {
    StrippedDistinct(oldRoutes);
    StrippedMembers(oldRoutes);
    StrippedDistinct(newRoutes);
    StrippedMembers(newRoutes);
    MergedDistinct(oldRoutes, newRoutes);
    forall r | r in Merged(oldRoutes, newRoutes) ensures r.strip { MergedMembers(oldRoutes, newRoutes, r); }
  }

  /** At most domain id's entry changes, and then it names the host. */
  predicate OnlyEntry(domains: Domains, after: Domains, id: string, hostname: string) {
    && after - {id} == domains - {id}
    && (id in after ==> after[id].hostname == hostname || (id in domains && after[id] == domains[id]))
  }

  /** What a replacement may have done, as the service's contract states it. */
  ghost predicate Replacing(addr: Host, rows: Rows, domains: Domains, after: Rows, domainsAfter: Domains, id: string,
                            listed: seq<Route>, newRoutes: seq<Route>, origin: Url, dbTime: int, active: seq<Route>,
                                o: Outcomes)
  {
    && id in rows
    && (var saga := SagaOutcome(addr, rows[id].hostname, listed, newRoutes, o);
        after == if saga in {Replaced, CommitRefused}
                 then rows[id := rows[id].(origin := origin, routes := newRoutes, updated := dbTime)] else rows)
    && OnlyEntry(domains, domainsAfter, id, rows[id].hostname)
    && RoutesAt(domainsAfter, id)
       == SagaEnd(addr, rows[id].hostname, View(active, rows[id].routes, RoutesAt(domains, id)),
                  listed, newRoutes, o).proxy
  }

  lemma ReplacementKeepsRows(addr: Host, start: int, end: int, rows: Rows, domains: Domains, after: Rows,
                             domainsAfter: Domains,
                             id: string, listed: seq<Route>, newRoutes: seq<Route>, origin: Url, dbTime: int,
                             active: seq<Route>, o: Outcomes)
    requires RowsSound(addr, start, end, rows) && Normalised(id, newRoutes) && RootOrigin(newRoutes, origin)
    requires Replacing(addr, rows, domains, after, domainsAfter, id, listed, newRoutes, origin, dbTime, active, o)
    ensures RowsSound(addr, start, end, after) && SameHosts(rows, after)
  {
    if after != rows {
      ReplacedIsAllowed(addr, rows[id].hostname, listed, newRoutes, o);
      RerouteKeepsRows(addr, start, end, rows, id, rows[id].(origin := origin, routes := newRoutes, updated := dbTime));
    }
  }

  /** Only routes that the proxy takes are stored. */
  lemma ReplacedIsAllowed(addr: Host, hostname: string, listed: seq<Route>, newRoutes: seq<Route>, o: Outcomes)
    requires SagaOutcome(addr, hostname, listed, newRoutes, o) in {Replaced, CommitRefused}
    ensures Allowed(addr, hostname, newRoutes)
  {
    CommitIsNeverRefused(addr, hostname, listed, newRoutes, o);
  }

  lemma RerouteKeepsRows(addr: Host, start: int, end: int, rows: Rows, id: string, row: Row)
    requires RowsSound(addr, start, end, rows) && id in rows
    requires row == rows[id].(origin := row.origin, routes := row.routes, updated := row.updated)
    requires Normalised(id, row.routes) && Allowed(addr, row.hostname, row.routes) && RootOrigin(row.routes, row.origin)
    ensures RowsSound(addr, start, end, rows[id := row]) && SameHosts(rows, rows[id := row])
  {
    RerouteIsStorable(addr, start, end, rows, id, row);
    StoreKeepsRows(addr, start, end, rows, id, row);
  }

  lemma ReplacementKeepsProxy(addr: Host, rows: Rows, domains: Domains, after: Rows, domainsAfter: Domains,
                              id: string, listed: seq<Route>, newRoutes: seq<Route>, origin: Url, dbTime: int,
                              active: seq<Route>, o: Outcomes)
    requires ProxySound(rows, domains) && KeysDistinct(PathOf, listed) && KeysDistinct(PathOf, newRoutes)
    requires Replacing(addr, rows, domains, after, domainsAfter, id, listed, newRoutes, origin, dbTime, active, o)
    ensures ProxySound(rows, domainsAfter)
  {
    if id in domains { assert EntryOk(rows, id, domains[id]); }
    SagaEntry(addr, rows[id].hostname, View(active, rows[id].routes, RoutesAt(domains, id)), listed, newRoutes, o);
    EntryKeepsProxy(rows, domains, domainsAfter, id);
  }

  /** A replacement keeps the invariant of the service, whatever fails, ... */
  lemma SoundAfterReplacing(addr: Host, start: int, end: int, rows: Rows, domains: Domains, after: Rows,
                            domainsAfter: Domains,
                            id: string, listed: seq<Route>, newRoutes: seq<Route>, origin: Url, dbTime: int,
                            active: seq<Route>, o: Outcomes)
    requires Normalised(id, newRoutes) && RootOrigin(newRoutes, origin)
    requires id in rows && ListedAs(listed, rows[id].routes)
    requires Replacing(addr, rows, domains, after, domainsAfter, id, listed, newRoutes, origin, dbTime, active, o)
    ensures StateSound(addr, start, end, rows, domains) ==> StateSound(addr, start, end, after, domainsAfter)
  {
    if StateSound(addr, start, end, rows, domains) {
      assert RowOk(addr, start, end, id, rows[id]);
      NormalisedIsValid(id, rows[id].routes);
      NormalisedIsValid(id, newRoutes);
      ListedIsRouteSet(listed, rows[id].routes);
      ReplacementKeepsRows(addr, start, end, rows, domains, after, domainsAfter, id, listed, newRoutes, origin,
          dbTime, active, o);
      ReplacementKeepsProxy(addr, rows, domains, after, domainsAfter, id, listed, newRoutes, origin, dbTime, active, o);
      SameHostsKeepProxy(rows, after, domainsAfter);
    }
  }

  /** ... and touches no other domain. */
  lemma ReplacingFrame(addr: Host, rows: Rows, domains: Domains, after: Rows, domainsAfter: Domains, id: string,
                       listed: seq<Route>, newRoutes: seq<Route>, origin: Url, dbTime: int,
                       active: seq<Route>, o: Outcomes)
    requires Replacing(addr, rows, domains, after, domainsAfter, id, listed, newRoutes, origin, dbTime, active, o)
    ensures domainsAfter - {id} == domains - {id}
    ensures after == if SagaOutcome(addr, rows[id].hostname, listed, newRoutes, o) == Replaced
                     then rows[id := rows[id].(origin := origin, routes := newRoutes, updated := dbTime)] else rows
  {
    CommitIsNeverRefused(addr, rows[id].hostname, listed, newRoutes, o);
  }

  /** A stored creation. */
  lemma CreationKeepsSound(addr: Host, start: int, end: int, rows: Rows, domains: Domains, id: string, row: Row)
    requires StateSound(addr, start, end, rows, domains)
    requires id !in rows && Storable(addr, start, end, rows, id, row)
    ensures StateSound(addr, start, end, rows[id := row],
            domains[id := DomainSnapshot(row.hostname, Stripped(row.routes))])
  {
    NormalisedIsValid(id, row.routes);
    StoreKeepsRows(addr, start, end, rows, id, row);
    SameHostsKeepProxy(rows, rows[id := row], domains);
    NewEntryKeepsProxy(rows[id := row], domains, id, row.routes);
  }

  lemma NewEntryKeepsProxy(rows: Rows, domains: Domains, id: string, routes: seq<Route>)
    requires ProxySound(rows, domains) && id in rows && KeysDistinct(PathOf, routes)
    ensures ProxySound(rows, domains[id := DomainSnapshot(rows[id].hostname, Stripped(routes))])
  {
    var after := domains[id := DomainSnapshot(rows[id].hostname, Stripped(routes))];
    StrippedEntryOk(rows, id, routes);
    assert after - {id} == domains - {id};
    EntryKeepsProxy(rows, domains, after, id);
  }

  lemma DeletionKeepsSound(addr: Host, start: int, end: int, rows: Rows, domains: Domains, id: string)
    requires StateSound(addr, start, end, rows, domains)
    ensures StateSound(addr, start, end, rows - {id}, domains - {id})
  {
    RemovalKeepsRows(addr, start, end, rows, id);
    forall x | x in domains - {id} ensures EntryOk(rows - {id}, x, (domains - {id})[x]) {
      assert EntryOk(rows, x, domains[x]);
    }
  }

  /** A deletion whose row stays. */
  lemma RestoreKeepsSound(addr: Host, start: int, end: int, rows: Rows, domains: Domains, after: Domains, id: string,
                          listed: seq<Route>)
    requires StateSound(addr, start, end, rows, domains) && id in rows && ListedAs(listed, rows[id].routes)
    requires after - {id} == domains - {id}
    requires id in after ==> after[id] == DomainSnapshot(rows[id].hostname, Stripped(listed))
    ensures StateSound(addr, start, end, rows, after)
  {
    assert RowOk(addr, start, end, id, rows[id]);
    NormalisedIsValid(id, rows[id].routes);
    ListedIsRouteSet(listed, rows[id].routes);
    StrippedEntryOk(rows, id, listed);
    EntryKeepsProxy(rows, domains, after, id);
  }
}
