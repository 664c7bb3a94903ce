/** What a restart does: Reconcile fills an empty proxy from SQLite. */
module StartUp {
  import opened Prelude
  import opened PathOrder
  import opened RoutePath
  import opened Routes
  import opened RouteLaws
  import opened ReadBack
  import opened PathRegex
  import opened Dispatch
  import opened IngressProxy
  import opened SagaSpec
  import opened ProxyLaws
  import opened SagaLaws
  import opened ServiceState
  import opened DomainService

  lemma {:induction false} HydratedAt(domains: Domains, rows: Rows, lists: map<string, seq<Route>>, all: seq<string>,
                                      now: int, ids: string -> nat -> string, id: string)
    requires forall x :: x in all ==> x in rows
    ensures var end := Hydrated(domains, rows, lists, all, now, ids);
            if id in all
            then id in end && end[id] == LoadedSnapshot(rows[id].hostname, id, Listed(lists, id), now, ids(id))
            else (id in end <==> id in domains) && (id in end ==> end[id] == domains[id])
  {
    if all != [] {
      var init, last := all[..|all| - 1], all[|all| - 1];
      LastOf(all, id);
      HydratedAt(domains, rows, lists, init, now, ids, id);
    }
  }

  lemma LastOf(all: seq<string>, id: string)
    requires all != []
    ensures id in all <==> id in all[..|all| - 1] || id == all[|all| - 1]
    ensures forall x :: x in all[..|all| - 1] ==> x in all
  {
    assert all == all[..|all| - 1] + [all[|all| - 1]];
  }

  /** What the rows of a sound state give: every list is a listing of its row's normalised routes. */
  ghost predicate Settled(addr: Host, id: string, row: Row, listed: seq<Route>) {
    Normalised(id, row.routes) && Allowed(addr, row.hostname, row.routes) && ListedAs(listed, row.routes)
  }

  /** ListRoutesByDomainIDs returned each row's routes in SQLite's order. */
  ghost predicate AllListed(rows: Rows, lists: map<string, seq<Route>>) {
    forall id :: id in rows ==> ListedAs(Listed(lists, id), rows[id].routes)
  }

  lemma SoundIsSettled(addr: Host, start: int, end: int, rows: Rows, lists: map<string, seq<Route>>, id: string)
    requires RowsSound(addr, start, end, rows) && AllListed(rows, lists) && id in rows
    ensures Settled(addr, id, rows[id], Listed(lists, id))
  {
    assert RowOk(addr, start, end, id, rows[id]);
  }

  /** The proxy serves for the domain what its row says. */
  ghost predicate Serves(domains: Domains, id: string, row: Row) {
    && id in domains && domains[id].hostname == row.hostname && KeysDistinct(PathOf, domains[id].routes)
    && forall r :: r in domains[id].routes <==> r in row.routes && r.strip
  }

  /** Two lists of the same routes on distinct paths give the same index. */
  lemma SameIndex(a: seq<Route>, b: seq<Route>)
    requires KeysDistinct(PathOf, a) && KeysDistinct(PathOf, b) && forall r :: r in a <==> r in b
    ensures IndexOf(a) == IndexOf(b)
  {
    PathsDistinct(a);
    PathsDistinct(b);
    RoutesDistinct(a);
    RoutesDistinct(b);
    DistinctMultiset(a);
    DistinctMultiset(b);
    forall r ensures multiset(a)[r] == multiset(b)[r] {
      assert r in a <==> r in b;
      assert (r in a <==> r in multiset(a)) && (r in b <==> r in multiset(b));
    }
    assert multiset(a) == multiset(b);
    SortSorted(PathOf, a);
    SortSorted(PathOf, b);
    SortMultiset(PathOf, a);
    SortMultiset(PathOf, b);
    KeysDistinctPermuted(PathOf, a, Sort(PathOf, a));
    SortedUnique(PathOf, Sort(PathOf, a), Sort(PathOf, b));
  }

  lemma SameIndexIff(a: seq<Route>, b: seq<Route>)
    requires KeysDistinct(PathOf, a) && KeysDistinct(PathOf, b)
    ensures IndexOf(a) == IndexOf(b) <==> forall r :: r in a <==> r in b
  {
    if IndexOf(a) == IndexOf(b) {
      SortMultiset(PathOf, a);
      SortMultiset(PathOf, b);
      forall r ensures r in a <==> r in b { assert r in multiset(a) <==> r in multiset(b); }
    } else if forall r :: r in a <==> r in b {
      SameIndex(a, b);
      assert false;
    }
  }

  lemma RoutesDistinct(routes: seq<Route>)
    requires KeysDistinct(PathOf, routes)
    ensures Distinct(routes)
  {
    forall i, j | 0 <= i < j < |routes| ensures routes[i] != routes[j] {
      assert PathOf(routes[i]) != PathOf(routes[j]);
    }
  }

  /** Same host, same index. */
  ghost predicate ServesAlike(end: Domains, before: Domains, id: string) {
    id in end && id in before && end[id].hostname == before[id].hostname &&
        IndexOf(end[id].routes) == IndexOf(before[id].routes)
  }

  lemma HydratedKeys(rows: Rows, lists: map<string, seq<Route>>, all: seq<string>, now: int,
                     ids: string -> nat -> string)
    requires Lists(all, rows)
    ensures Hydrated(map[], rows, lists, all, now, ids).Keys == rows.Keys
  {
    forall id ensures id in Hydrated(map[], rows, lists, all, now, ids) <==> id in rows {
      HydratedAt(map[], rows, lists, all, now, ids, id);
    }
  }

  /** Reading a set back keeps every origin and strip flag, so the proxy takes it. */
  lemma ReloadedIsAllowed(addr: Host, id: string, row: Row, listed: seq<Route>, now: int, ids: nat -> string)
    requires Settled(addr, id, row, listed) && Accepted(InputsOf(listed), true)
    requires forall r :: r in listed ==> Readable(r)
    ensures Allowed(addr, row.hostname, PersistedRoutes(id, listed, now, ids))
  {
    forall q | q in PersistedRoutes(id, listed, now, ids) && q.strip ensures OriginAllowed(addr, q) {
      var p := PersistedComesFrom(id, listed, now, ids, q);
      InputAccepted(listed, p);
      SameOrigin(p, q);
      assert p in multiset(listed) && p in row.routes;
    }
  }

  lemma SameOrigin(p: Route, q: Route)
    requires Readable(p) && NormalizeOne(InputOf(p), true) == Ok(CoreOf(q))
    ensures q.origin == p.origin && q.strip == p.strip
  {
  }

  lemma RowReloadsIff(addr: Host, id: string, row: Row, listed: seq<Route>, now: int, ids: nat -> string)
    requires Settled(addr, id, row, listed)
    ensures Loadable(addr, row.hostname, id, listed, now, ids) <==> NoneEmpty(listed) && Distinct(ReadPaths(listed))
  {
    var inputs, at, allowPath, drawn :|
      Accepted(inputs, allowPath) && row.routes == NormalRoutes(id, inputs, at, allowPath, drawn);
    StoredAreReadable(id, inputs, at, allowPath, drawn, listed);
    TakenBackIff(listed);
    if Accepted(InputsOf(listed), true) { ReloadedIsAllowed(addr, id, row, listed, now, ids); }
  }

  /** Start-up of a sound service succeeds exactly when no domain has an empty path or two paths that are
      read as the same one. A single such domain keeps the whole service from starting. */
  lemma StartUpSucceedsIff(addr: Host, start: int, end: int, rows: Rows, lists: map<string, seq<Route>>,
                           all: seq<string>,
                           now: int, ids: string -> nat -> string)
    requires RowsSound(addr, start, end, rows) && AllListed(rows, lists) && Lists(all, rows)
    ensures AllLoadable(addr, rows, lists, all, now, ids) <==>
            forall id :: id in rows ==> NoneEmpty(Listed(lists, id)) && Distinct(ReadPaths(Listed(lists, id)))
  {
    forall id | id in rows
      ensures LoadableRow(addr, rows, lists, id, now, ids)
         <==> NoneEmpty(Listed(lists, id)) && Distinct(ReadPaths(Listed(lists, id)))
    {
      SoundIsSettled(addr, start, end, rows, lists, id);
      RowReloadsIff(addr, id, rows[id], Listed(lists, id), now, ids(id));
    }
  }

  /** In particular, canonical paths never keep the service from starting. */
  lemma CanonicalStartsUp(addr: Host, start: int, end: int, rows: Rows, lists: map<string, seq<Route>>,
                          all: seq<string>,
                          now: int, ids: string -> nat -> string)
    requires RowsSound(addr, start, end, rows) && AllListed(rows, lists) && Lists(all, rows)
    requires forall id :: id in rows ==> CanonicalPaths(Listed(lists, id))
    ensures AllLoadable(addr, rows, lists, all, now, ids)
  {
    forall id | id in rows ensures NoneEmpty(Listed(lists, id)) && Distinct(ReadPaths(Listed(lists, id))) {
      SoundIsSettled(addr, start, end, rows, lists, id);
      CanonicalRowReads(addr, id, rows[id], Listed(lists, id));
    }
    StartUpSucceedsIff(addr, start, end, rows, lists, all, now, ids);
  }

  lemma CanonicalRowReads(addr: Host, id: string, row: Row, listed: seq<Route>)
    requires Settled(addr, id, row, listed) && CanonicalPaths(listed)
    ensures NoneEmpty(listed) && Distinct(ReadPaths(listed))
  {
    var inputs, at, allowPath, drawn :|
      Accepted(inputs, allowPath) && row.routes == NormalRoutes(id, inputs, at, allowPath, drawn);
    StoredAreReadable(id, inputs, at, allowPath, drawn, listed);
    CanonicalKeepsPaths(listed);
    NormalisedIsValid(id, row.routes);
    ListedIsRouteSet(listed, row.routes);
    PathsDistinct(listed);
  }

  // ---- what a restart that succeeds serves -------------------------------------------------------

  /** The list Reconcile registers for a row. */
  function Reloaded(id: string, listed: seq<Route>, now: int, ids: nat -> string): seq<Route> {
    Stripped(PersistedRoutes(id, listed, now, ids))
  }

  /** The stripped paths as they are read. */
  function ReadStripped(listed: seq<Route>): set<string> {
    set r | r in listed && r.strip :: ReadPath(r.path)
  }

  /** A listing that is accepted again: readable routes of the domain on distinct paths. */
  ghost predicate Rereadable(id: string, listed: seq<Route>) {
    && Accepted(InputsOf(listed), true) && KeysDistinct(PathOf, listed)
    && forall r :: r in listed ==> Readable(r) && r.domainId == id
  }

  lemma SettledIsRereadable(addr: Host, id: string, row: Row, listed: seq<Route>, now: int, ids: nat -> string)
    requires Settled(addr, id, row, listed) && Loadable(addr, row.hostname, id, listed, now, ids)
    ensures Rereadable(id, listed) && forall r :: r in listed <==> r in row.routes
  {
    var inputs, at, allowPath, drawn :|
      Accepted(inputs, allowPath) && row.routes == NormalRoutes(id, inputs, at, allowPath, drawn);
    StoredAreReadable(id, inputs, at, allowPath, drawn, listed);
    CanonicalMeansStable(id, inputs, at, allowPath, drawn, listed);
    NormalisedIsValid(id, row.routes);
    ListedIsRouteSet(listed, row.routes);
  }

  /** Where a reloaded route comes from, ... */
  lemma ReloadedComesFrom(id: string, listed: seq<Route>, now: int, ids: nat -> string, q: Route) returns (p: Route)
    requires Rereadable(id, listed) && q in Reloaded(id, listed, now, ids)
    ensures p in listed && p.strip && ReadPath(p.path) == q.path
  {
    StrippedMembers(PersistedRoutes(id, listed, now, ids));
    p := PersistedComesFrom(id, listed, now, ids, q);
    InputAccepted(listed, p);
    OneReads(p);
    SameOrigin(p, q);
  }

  /** ... and what becomes of a stored one: the very same route if its path reads as itself. */
  lemma StoredIsReloaded(id: string, listed: seq<Route>, now: int, ids: nat -> string, p: Route) returns (q: Route)
    requires Rereadable(id, listed) && p in listed && p.strip
    ensures q in Reloaded(id, listed, now, ids) && q.path == ReadPath(p.path)
    ensures ReadPath(p.path) == p.path ==> q == p
  {
    var i :| 0 <= i < |listed| && listed[i] == p;
    var draft := Draft(id, InputCores(InputsOf(listed), true), now, ids);
    InputAccepted(listed, p);
    OneReads(p);
    assert CoreOf(draft[i]) == CoreOr(InputOf(p), true);
    SameOrigin(p, draft[i]);
    q := Restored(Metadata(listed), draft[i]);
    DraftIsReloaded(id, listed, now, ids, draft[i]);
    if ReadPath(p.path) == p.path { IdentityRestored(listed, draft[i], p); }
  }

  lemma DraftIsReloaded(id: string, listed: seq<Route>, now: int, ids: nat -> string, r: Route)
    requires r in Draft(id, InputCores(InputsOf(listed), true), now, ids) && r.strip
    ensures Restored(Metadata(listed), r) in Reloaded(id, listed, now, ids)
  {
    var draft := Draft(id, InputCores(InputsOf(listed), true), now, ids);
    var normal := NormalRoutes(id, InputsOf(listed), now, true, ids);
    SortMultiset(PathOf, draft);
    assert r in multiset(normal);
    var k :| 0 <= k < |normal| && normal[k] == r;
    assert PersistedRoutes(id, listed, now, ids)[k] == Restored(Metadata(listed), r);
    StrippedMembers(PersistedRoutes(id, listed, now, ids));
  }

  /** Whatever the remote serves, a restart covers it exactly if its stripped paths are read from stored
      ones: neither the transition routes that the proxy held before nor the old spelling of a path
      survive it. */
  lemma RestartCoversIff(addr: Host, id: string, row: Row, listed: seq<Route>, now: int, ids: nat -> string,
                         active: seq<Route>)
    requires Settled(addr, id, row, listed) && Loadable(addr, row.hostname, id, listed, now, ids)
    ensures Covers(Reloaded(id, listed, now, ids), active) <==> StrippedPaths(active) <= ReadStripped(listed)
  {
    var loaded := Reloaded(id, listed, now, ids);
    SettledIsRereadable(addr, id, row, listed, now, ids);
    if StrippedPaths(active) <= ReadStripped(listed) {
      forall c | c in active && c.strip ensures exists r :: r in loaded && r.path == c.path {
        assert c.path in StrippedPaths(active);
        var p :| p in listed && p.strip && ReadPath(p.path) == c.path;
        var q := StoredIsReloaded(id, listed, now, ids, p);
      }
    }
    if Covers(loaded, active) {
      forall path | path in StrippedPaths(active) ensures path in ReadStripped(listed) {
        var c :| c in active && c.strip && c.path == path;
        var q :| q in loaded && q.path == c.path;
        var p := ReloadedComesFrom(id, listed, now, ids, q);
      }
    }
  }

  /** Every stripped path is canonical. A direct route with another path does no harm. */
  ghost predicate StrippedCanonical(listed: seq<Route>) {
    forall r :: r in listed && r.strip ==> r.path != "" && !IsSpace(r.path[|r.path| - 1])
  }

  lemma StrippedCanonicalIff(listed: seq<Route>)
    ensures StrippedCanonical(listed) <==> CanonicalPaths(Stripped(listed))
  {
    StrippedMembers(listed);
  }

  /** The longest stripped path that does not read as itself is read from nowhere. */
  lemma LostPath(listed: seq<Route>) returns (lost: Route)
    requires (forall r :: r in listed ==> Readable(r)) && NoneEmpty(listed) && !StrippedCanonical(listed)
    ensures lost in listed && lost.strip && lost.path !in ReadStripped(listed)
  {
    StrippedMembers(listed);
    StrippedCanonicalIff(listed);
    lost := UncanonicalIsLost(Stripped(listed));
    forall p | p in listed && p.strip ensures ReadPath(p.path) in ReadPaths(Stripped(listed)) {
      var i :| 0 <= i < |Stripped(listed)| && Stripped(listed)[i] == p;
      assert ReadPaths(Stripped(listed))[i] == ReadPath(p.path);
    }
  }

  lemma CanonicalReadsItself(listed: seq<Route>, r: Route)
    requires StrippedCanonical(listed) && r in listed && r.strip && Readable(r)
    ensures ReadPath(r.path) == r.path
  {
    CanonicalReads(r.path);
  }

  /** A row's own routes stay covered by a restart exactly if every stripped path is canonical. */
  lemma OwnCoverIff(addr: Host, id: string, row: Row, listed: seq<Route>, now: int, ids: nat -> string)
    requires Settled(addr, id, row, listed) && Loadable(addr, row.hostname, id, listed, now, ids)
    ensures Covers(Reloaded(id, listed, now, ids), row.routes) <==> StrippedCanonical(listed)
  {
    SettledIsRereadable(addr, id, row, listed, now, ids);
    RowReloadsIff(addr, id, row, listed, now, ids);
    RestartCoversIff(addr, id, row, listed, now, ids, row.routes);
    if StrippedCanonical(listed) {
      forall r | r in row.routes && r.strip ensures r.path in ReadStripped(listed) {
        CanonicalReadsItself(listed, r);
      }
    } else {
      var lost := LostPath(listed);
      assert lost.path in StrippedPaths(row.routes);
    }
  }

  lemma ReloadedDistinct(id: string, listed: seq<Route>, now: int, ids: nat -> string)
    requires Accepted(InputsOf(listed), true)
    ensures KeysDistinct(PathOf, Reloaded(id, listed, now, ids))
  {
    LoadedDistinct(id, listed, now, ids);
    StrippedDistinct(PersistedRoutes(id, listed, now, ids));
  }

  /** If every stripped path is canonical, the very same stripped routes are registered again. */
  lemma CanonicalReloadsSame(addr: Host, id: string, row: Row, listed: seq<Route>, now: int, ids: nat -> string,
                             r: Route)
    requires Settled(addr, id, row, listed) && Loadable(addr, row.hostname, id, listed, now, ids)
    requires StrippedCanonical(listed)
    ensures r in Reloaded(id, listed, now, ids) <==> r in row.routes && r.strip
  {
    SettledIsRereadable(addr, id, row, listed, now, ids);
    if r in Reloaded(id, listed, now, ids) {
      var p := ReloadedComesFrom(id, listed, now, ids, r);
      var q := StoredIsReloaded(id, listed, now, ids, p);
      CanonicalReadsItself(listed, p);
      ReloadedDistinct(id, listed, now, ids);
      OneOfPath(Reloaded(id, listed, now, ids), q, r);
    }
    if r in row.routes && r.strip {
      var q := StoredIsReloaded(id, listed, now, ids, r);
      CanonicalReadsItself(listed, r);
    }
  }

  lemma OneOfPath(routes: seq<Route>, a: Route, b: Route)
    requires KeysDistinct(PathOf, routes) && a in routes && b in routes && a.path == b.path
    ensures a == b
  {
    var i :| 0 <= i < |routes| && routes[i] == a;
    var j :| 0 <= j < |routes| && routes[j] == b;
    assert PathOf(routes[i]) == PathOf(routes[j]);
  }

  /** A row is served from the same index after a restart exactly if every stripped path is canonical. */
  lemma SameIndexAfterRestartIff(addr: Host, id: string, row: Row, listed: seq<Route>, now: int, ids: nat -> string)
    requires Settled(addr, id, row, listed) && Loadable(addr, row.hostname, id, listed, now, ids)
    ensures IndexOf(Reloaded(id, listed, now, ids)) == IndexOf(Stripped(row.routes)) <==> StrippedCanonical(listed)
  {
    var loaded, own := Reloaded(id, listed, now, ids), Stripped(row.routes);
    NormalisedIsValid(id, row.routes);
    StrippedDistinct(row.routes);
    StrippedMembers(row.routes);
    ReloadedDistinct(id, listed, now, ids);
    SameIndexIff(loaded, own);
    if StrippedCanonical(listed) {
      forall r ensures r in loaded <==> r in own { CanonicalReloadsSame(addr, id, row, listed, now, ids, r); }
    } else {
      OwnCoverIff(addr, id, row, listed, now, ids);
      if IndexOf(loaded) == IndexOf(own) { SameMembersCover(loaded, row.routes); }
    }
  }

  lemma SameMembersCover(loaded: seq<Route>, routes: seq<Route>)
    requires forall r :: r in loaded <==> r in Stripped(routes)
    ensures Covers(loaded, routes)
  {
    StrippedMembers(routes);
  }

  lemma RowServesAlikeIff(addr: Host, rows: Rows, lists: map<string, seq<Route>>, all: seq<string>,
                          before: Domains, now: int, ids: string -> nat -> string, id: string)
    requires Lists(all, rows) && id in rows && Settled(addr, id, rows[id], Listed(lists, id))
    requires LoadableRow(addr, rows, lists, id, now, ids) && Serves(before, id, rows[id])
    ensures ServesAlike(Hydrated(map[], rows, lists, all, now, ids), before, id) <==>
            StrippedCanonical(Listed(lists, id))
  {
    HydratedAt(map[], rows, lists, all, now, ids, id);
    NormalisedIsValid(id, rows[id].routes);
    StrippedDistinct(rows[id].routes);
    StrippedMembers(rows[id].routes);
    SameIndex(Stripped(rows[id].routes), before[id].routes);
    SameIndexAfterRestartIff(addr, id, rows[id], Listed(lists, id), now, ids(id));
  }

  /** A restart of a sound service that succeeds (StartUpSucceedsIff) brings every domain back, and a host
      whose entry agreed with its row is served from the same index as before exactly if every stripped
      path of the domain is canonical. */
  lemma RestartRestoresTheProxy(addr: Host, start: int, end: int, rows: Rows, lists: map<string, seq<Route>>,
                                all: seq<string>, before: Domains, now: int, ids: string -> nat -> string)
    requires RowsSound(addr, start, end, rows) && AllListed(rows, lists) && Lists(all, rows)
    requires AllLoadable(addr, rows, lists, all, now, ids)
    ensures Hydrated(map[], rows, lists, all, now, ids).Keys == rows.Keys
    ensures forall id :: id in rows && Serves(before, id, rows[id]) ==>
              (ServesAlike(Hydrated(map[], rows, lists, all, now, ids), before, id) <==>
                  StrippedCanonical(Listed(lists, id)))
  {
    HydratedKeys(rows, lists, all, now, ids);
    forall id | id in rows && Serves(before, id, rows[id])
      ensures ServesAlike(Hydrated(map[], rows, lists, all, now, ids), before, id) <==>
              StrippedCanonical(Listed(lists, id))
    {
      SoundIsSettled(addr, start, end, rows, lists, id);
      assert LoadableRow(addr, rows, lists, id, now, ids);
      RowServesAlikeIff(addr, rows, lists, all, before, now, ids, id);
    }
  }

  /** Where it is not, a request is lost: the path of some stripped route, requested as it stands, is still
      sent to the proxy and no longer delivered as the route says. */
  lemma RestartLoses(addr: Host, id: string, row: Row, listed: seq<Route>, now: int, ids: nat -> string)
    returns (lost: Route)
    requires ValidAddr(addr) && Settled(addr, id, row, listed) && Loadable(addr, row.hostname, id, listed, now, ids)
    requires !StrippedCanonical(listed)
    ensures lost in row.routes && lost.strip && Longest(row.routes, lost.path) == Some(lost)
    ensures Deliver(addr, Rules(addr, row.routes), IndexOf(Stripped(row.routes)), lost.path)
         == DeliverBy(lost, lost.path)
    ensures Deliver(addr, Rules(addr, row.routes), IndexOf(Reloaded(id, listed, now, ids)), lost.path)
         != DeliverBy(lost, lost.path)
  {
    SettledIsRereadable(addr, id, row, listed, now, ids);
    RowReloadsIff(addr, id, row, listed, now, ids);
    lost := LostPath(listed);
    NormalisedIsValid(id, row.routes);
    ValidRoutesDispatch(row.routes);
    ReloadedDistinct(id, listed, now, ids);
    NotReloaded(id, listed, now, ids, lost.path);
    UncoveredIsLost(addr, View(row.routes, row.routes, Reloaded(id, listed, now, ids)), lost);
    OwnDelivers(addr, row.routes, lost);
  }

  lemma NotReloaded(id: string, listed: seq<Route>, now: int, ids: nat -> string, path: string)
    requires Rereadable(id, listed) && path !in ReadStripped(listed)
    ensures !(exists r :: r in Reloaded(id, listed, now, ids) && r.path == path)
  {
    ReloadedPaths(id, listed, now, ids);
  }

  /** Served from its own index, a stripped route gets the request for its own path. */
  lemma OwnDelivers(addr: Host, routes: seq<Route>, c: Route)
    requires ValidAddr(addr) && ValidRoutes(routes) && c in routes && c.strip && Longest(routes, c.path) == Some(c)
    ensures Deliver(addr, Rules(addr, routes), IndexOf(Stripped(routes)), c.path) == DeliverBy(c, c.path)
  {
    ValidRoutesDispatch(routes);
    StrippedDistinct(routes);
    StrippedMembers(routes);
    SortedIsIndex(Stripped(routes), routes);
    assert NewlineFree(c.path) by { assert IsControl('\n'); }
    DispatchIsExact(addr, routes, IndexOf(Stripped(routes)), c.path);
  }

  // ---- two sets that the service accepts and then cannot start with ---------------------------------

  function Direct(path: string): RouteInput { RouteInput(Utf8(path), Some(ORIGIN), false) }

  lemma PathsRead()
    ensures NormalizePath(Utf8("/")) == Ok("/")
    ensures NormalizePath(Utf8("//")) == Ok("")
    ensures NormalizePath(Utf8("/ /")) == Ok("/ ")
    ensures ReadPath("/ ") == "/" == ReadPath("/")
  {
    assert ByteLen("/") == 1 by { assert "/"[1..] == ""; }
    DoubleSlashIsNotCanonical();
    var s, t := "/ /", "/ ";
    assert s == t + "/" && s[..2] == t;
    assert t == "/" + " " && t[..1] == "/";
    assert TrimSpace(s) == s;
    assert TrimRightSlashes(s) == TrimRightSlashes(t) == t;
    assert TrimSpace(t) == TrimRightSpace(t) == TrimRightSpace("/") == "/";
    assert ByteLen(s[2..]) == 1;
    assert ByteLen(s[1..]) == 2 by { assert s[1..][1..] == s[2..]; }
    assert ByteLen(s) == 3;
  }

  function Second(raw: string): string { if raw == "//" then "" else "/ " }

  lemma PairIsAccepted(raw: string)
    requires raw in {"//", "/ /"}
    ensures Accepted([Direct("/"), Direct(raw)], false)
    ensures InputCores([Direct("/"), Direct(raw)], false)
         == [Core("/", ORIGIN, false), Core(Second(raw), ORIGIN, false)]
  {
    PathsRead();
    var cores := InputCores([Direct("/"), Direct(raw)], false);
    assert cores == [Core("/", ORIGIN, false), Core(Second(raw), ORIGIN, false)];
    assert CorePaths(cores) == ["/", Second(raw)];
    assert CorePaths(cores)[0] == "/";
  }

  /** Sets that creation and replacement take and that no later start-up does. */
  lemma AcceptedButNotTakenBack(id: string, now: int, ids: nat -> string, raw: string)
    requires raw in {"//", "/ /"}
    ensures var inputs := [Direct("/"), Direct(raw)];
            && Accepted(inputs, false)
            && !Accepted(InputsOf(NormalRoutes(id, inputs, now, false, ids)), true)
  {
    PathsRead();
    PairIsAccepted(raw);
    var inputs := [Direct("/"), Direct(raw)];
    var stored := NormalRoutes(id, inputs, now, false, ids);
    StoredSetIsTakenBackIff(id, inputs, now, false, ids, stored);
    var draft := Draft(id, InputCores(inputs, false), now, ids);
    SortMultiset(PathOf, draft);
    assert draft[0] in multiset(stored) && draft[1] in multiset(stored);
    if Distinct(ReadPaths(stored)) && raw == "/ /" {
      OnlyTheRootReadsAsRoot(stored, draft[0], draft[1]);
    }
  }

  // ---- a set that a restart takes and silently breaks -----------------------------------------------

  /** A stripped route whose raw path loses its last slash and keeps the space before it. */
  const SPACED := RouteInput(Utf8("/a /"), Some(ORIGIN), true)

  lemma SpacedIsNormalised()
    ensures NormalizeOne(SPACED, false) == Ok(Core("/a ", ORIGIN, true))
    ensures NormalizeOne(Direct("/"), false) == Ok(Core("/", ORIGIN, false))
  {
    InnerSpaceIsNotCanonical();
    assert ByteLen("/") == 1 by { assert "/"[1..] == ""; }
    assert TrimSpace("/") == "/";
  }

  /** One route beside the root: accepted, and sorted with the root last. */
  lemma BesideRoot(id: string, input: RouteInput, path: string, now: int, ids: nat -> string)
    requires NormalizeOne(input, false) == Ok(Core(path, ORIGIN, input.strip))
    requires NormalizeOne(Direct("/"), false) == Ok(Core("/", ORIGIN, false))
    requires Before(path, "/") && !Before("/", path)
    ensures Accepted([input, Direct("/")], false)
    ensures NormalRoutes(id, [input, Direct("/")], now, false, ids)
         == [Route(ids(0), id, path, ORIGIN, input.strip, now, now), Route(ids(1), id, "/", ORIGIN, false, now, now)]
  {
    BesideRootCores(input, path);
    var a := Route(ids(0), id, path, ORIGIN, input.strip, now, now);
    var root := Route(ids(1), id, "/", ORIGIN, false, now, now);
    assert Draft(id, InputCores([input, Direct("/")], false), now, ids) == [a, root];
    assert [a, root][1..] == [root] && [root][1..] == [];
    assert Sort(PathOf, [root]) == [root];
  }

  lemma BesideRootCores(input: RouteInput, path: string)
    requires NormalizeOne(input, false) == Ok(Core(path, ORIGIN, input.strip)) && path != "/"
    requires NormalizeOne(Direct("/"), false) == Ok(Core("/", ORIGIN, false))
    ensures Accepted([input, Direct("/")], false)
    ensures InputCores([input, Direct("/")], false) == [Core(path, ORIGIN, input.strip), Core("/", ORIGIN, false)]
  {
    var cores := InputCores([input, Direct("/")], false);
    assert cores == [Core(path, ORIGIN, input.strip), Core("/", ORIGIN, false)];
    assert CorePaths(cores) == [path, "/"];
    assert CorePaths(cores)[1] == "/";
  }

  lemma SpacedRoutes(id: string, now: int, ids: nat -> string)
    ensures Accepted([SPACED, Direct("/")], false)
    ensures NormalRoutes(id, [SPACED, Direct("/")], now, false, ids)
         == [Route(ids(0), id, "/a ", ORIGIN, true, now, now), Route(ids(1), id, "/", ORIGIN, false, now, now)]
  {
    SpacedIsNormalised();
    SpacedComesFirst();
    BesideRoot(id, SPACED, "/a ", now, ids);
  }

  lemma SpacedComesFirst()
    ensures Before("/a ", "/") && !Before("/", "/a ")
  {
    assert ByteLen("/") == 1 by { assert "/"[1..] == ""; }
    assert "/a "[1..] == "a " && "a "[1..] == " " && " "[1..] == "";
    assert ByteLen(" ") == 1;
    assert ByteLen("a ") == 2;
    assert ByteLen("/a ") == 3;
  }

  /** Created from a raw "/a /" beside the root, the domain serves "/a " until the service restarts. The
      restart succeeds, registers "/a", and the same request, which the remote still sends to the proxy,
      ends in a 404. */
  lemma RestartBreaksSpacedPath(addr: Host, hostname: string, id: string, now: int, ids: nat -> string,
                                later: int, newIds: nat -> string)
    requires ValidAddr(addr) && addr.port != "3000" && hostname != ""
    ensures var inputs := [SPACED, Direct("/")];
            var routes := NormalRoutes(id, inputs, now, false, ids);
            && Accepted(inputs, false) && Allowed(addr, hostname, routes) && SqlSorted(Paths(routes))
            && Loadable(addr, hostname, id, routes, later, newIds)
            && Deliver(addr, Rules(addr, routes), IndexOf(Stripped(routes)), "/a ")
               == Delivered(ORIGIN, "/", Some("/a "))
            && Deliver(addr, Rules(addr, routes), IndexOf(Reloaded(id, routes, later, newIds)), "/a ") == NotFound
  {
    var inputs := [SPACED, Direct("/")];
    var routes := NormalRoutes(id, inputs, now, false, ids);
    SpacedRoutes(id, now, ids);
    SpacedIsSettled(addr, hostname, id, now, ids);
    var row := Row(hostname, "", "", "", ORIGIN, Pending, 0, routes, now);
    SpacedIsLoadable(addr, row, id, now, ids, later, newIds);
    SpacedDelivers(addr, id, routes, later, newIds);
  }

  lemma SpacedIsSettled(addr: Host, hostname: string, id: string, now: int, ids: nat -> string)
    requires ValidAddr(addr) && addr.port != "3000" && hostname != ""
    ensures var routes := NormalRoutes(id, [SPACED, Direct("/")], now, false, ids);
            Normalised(id, routes) && Allowed(addr, hostname, routes) && ListedAs(routes, routes)
  {
    SpacedRoutes(id, now, ids);
    AcceptedIsNormalised(id, [SPACED, Direct("/")], now, ids);
    PairFits(addr, hostname, Route(ids(0), id, "/a ", ORIGIN, true, now, now),
             Route(ids(1), id, "/", ORIGIN, false, now, now));
  }

  lemma PairFits(addr: Host, hostname: string, a: Route, root: Route)
    requires ValidAddr(addr) && addr.port != "3000" && hostname != "" && a.origin == ORIGIN && root.origin == ORIGIN
    requires |a.path| > |root.path|
    ensures Allowed(addr, hostname, [a, root]) && ListedAs([a, root], [a, root])
  {
    PairListed(a, root);
    PairAllowed(addr, hostname, a, root);
  }

  lemma PairListed(a: Route, b: Route)
    requires |a.path| > |b.path|
    ensures ListedAs([a, b], [a, b])
  {
    assert Paths([a, b]) == [a.path, b.path];
  }

  lemma PairAllowed(addr: Host, hostname: string, a: Route, b: Route)
    requires ValidAddr(addr) && addr.port != "3000" && hostname != "" && a.origin == ORIGIN && b.origin == ORIGIN
    ensures Allowed(addr, hostname, [a, b])
  {
  }

  lemma SpacedIsLoadable(addr: Host, row: Row, id: string, now: int, ids: nat -> string, later: int,
                         newIds: nat -> string)
    requires row.routes == NormalRoutes(id, [SPACED, Direct("/")], now, false, ids)
    requires Settled(addr, id, row, row.routes)
    ensures Loadable(addr, row.hostname, id, row.routes, later, newIds)
    ensures Rereadable(id, row.routes) && ReadStripped(row.routes) == {"/a"}
    ensures ValidRoutes(row.routes)
  {
    SpacedRoutes(id, now, ids);
    SpacedPairReads(row.routes[0], row.routes[1]);
    RowReloadsIff(addr, id, row, row.routes, later, newIds);
    SettledIsRereadable(addr, id, row, row.routes, later, newIds);
    NormalisedIsValid(id, row.routes);
  }

  lemma SpacedPairReads(a: Route, root: Route)
    requires a.path == "/a " && a.strip && root.path == "/" && !root.strip
    ensures NoneEmpty([a, root]) && Distinct(ReadPaths([a, root])) && ReadStripped([a, root]) == {"/a"}
  {
    SpacedReads();
    RootReads();
    PairReads(a, root);
    assert a in [a, root];
  }

  lemma SpacedDelivers(addr: Host, id: string, routes: seq<Route>, later: int, newIds: nat -> string)
    requires ValidAddr(addr) && ValidRoutes(routes) && Rereadable(id, routes) && ReadStripped(routes) == {"/a"}
    requires |routes| == 2
    requires CoreOf(routes[0]) == Core("/a ", ORIGIN, true) && CoreOf(routes[1]) == Core("/", ORIGIN, false)
    ensures Deliver(addr, Rules(addr, routes), IndexOf(Stripped(routes)), "/a ") == Delivered(ORIGIN, "/", Some("/a "))
    ensures Deliver(addr, Rules(addr, routes), IndexOf(Reloaded(id, routes, later, newIds)), "/a ") == NotFound
  {
    var a := routes[0];
    assert routes == [a, routes[1]];
    LongestOfPair(a, routes[1]);
    OwnDelivers(addr, routes, a);
    ValidRoutesDispatch(routes);
    assert NewlineFree("/a ");
    ChosenDelivers(addr, routes, IndexOf(Reloaded(id, routes, later, newIds)), "/a ");
    NothingMatches(id, routes, later, newIds);
  }

  lemma LongestOfPair(a: Route, root: Route)
    requires a.path == "/a " && root.path == "/"
    ensures Longest([a, root], "/a ") == Some(a)
  {
    assert [a, root][1..] == [root] && [root][1..] == [];
    assert Longest([root], "/a ") == Some(root);
  }

  lemma NothingMatches(id: string, routes: seq<Route>, later: int, newIds: nat -> string)
    requires Rereadable(id, routes) && ReadStripped(routes) == {"/a"}
    ensures FirstMatch(IndexOf(Reloaded(id, routes, later, newIds)), "/a ") == None
  {
    ReloadedPaths(id, routes, later, newIds);
    NoneOfPath(Reloaded(id, routes, later, newIds), ReadStripped(routes));
  }

  lemma ReloadedPaths(id: string, listed: seq<Route>, now: int, ids: nat -> string)
    requires Rereadable(id, listed)
    ensures forall q :: q in Reloaded(id, listed, now, ids) ==> q.path in ReadStripped(listed)
  {
    forall q | q in Reloaded(id, listed, now, ids) ensures q.path in ReadStripped(listed) {
      var p := ReloadedComesFrom(id, listed, now, ids, q);
    }
  }

  lemma NoneOfPath(loaded: seq<Route>, paths: set<string>)
    requires paths == {"/a"} && forall q :: q in loaded ==> q.path in paths
    ensures FirstMatch(IndexOf(loaded), "/a ") == None
  {
    SortedMembers(loaded);
    NoMatch(IndexOf(loaded));
  }

  lemma NoMatch(index: seq<Route>)
    requires forall q :: q in index ==> q.path == "/a"
    ensures FirstMatch(index, "/a ") == None
  {
    var slashed := "/a" + "/";
    assert slashed[2] == '/' && "/a "[2] == ' ';
    assert !MatchesPrefix("/a ", "/a");
  }
}
