/** When the remote shows other routes than SQLite does: what every rebuild of the proxy's entry from SQLite
    then takes away, and how the service gets there. */
module Drift {
  import opened Prelude
  import opened PathOrder
  import opened RoutePath
  import opened Routes
  import opened RouteLaws
  import opened ReadBack
  import opened Dispatch
  import opened IngressProxy
  import opened ProxyLaws
  import opened SagaSpec
  import opened SagaLaws
  import opened ServiceState
  import opened DomainService
  import opened StartUp

  // ---- a deletion whose row stays ------------------------------------------------------------------

  lemma ListedIsAllowed(addr: Host, id: string, row: Row, listed: seq<Route>)
    requires Settled(addr, id, row, listed)
    ensures Allowed(addr, row.hostname, listed) && RouteSet(listed) && forall r :: r in listed <==> r in row.routes
  {
    NormalisedIsValid(id, row.routes);
    ListedIsRouteSet(listed, row.routes);
  }

  /** The entry put back covers what the remote serves exactly if the stored set has its stripped paths. */
  lemma DeletionCoversIff(addr: Host, id: string, row: Row, domains: Domains, listed: seq<Route>, active: seq<Route>)
    requires Settled(addr, id, row, listed)
    ensures var after := EntriesAfter(addr, domains, id, row.hostname, listed, false);
            id in after && (Covers(after[id].routes, active) <==> StrippedPaths(active) <= StrippedPaths(row.routes))
  {
    ListedIsAllowed(addr, id, row, listed);
    CoversByPaths(Stripped(listed), active);
    StrippedListPaths(listed);
    assert StrippedPaths(listed) == StrippedPaths(row.routes);
  }

  /** The domain is served from the same index as before the deletion exactly if the entry that was taken
      out agreed with the row; a transition set is not put back. */
  lemma RestoredServesAsBeforeIff(addr: Host, id: string, row: Row, domains: Domains, listed: seq<Route>)
    requires Settled(addr, id, row, listed)
    requires id in domains && domains[id].hostname == row.hostname && KeysDistinct(PathOf, domains[id].routes)
    ensures var after := EntriesAfter(addr, domains, id, row.hostname, listed, false);
            ServesAlike(after, domains, id) <==> Serves(domains, id, row)
  {
    ListedIsAllowed(addr, id, row, listed);
    StrippedDistinct(listed);
    StrippedMembers(listed);
    SameIndexIff(Stripped(listed), domains[id].routes);
  }

  // ---- after a half-undone replacement -----------------------------------------------------------

  /** Where an attempt leaves a domain whose store and undo both failed. */
  lemma HalfUndone(addr: Host, hostname: string, v: View, a: Attempt)
    requires StoredOk(addr, hostname, v) && InStep(v) && WellFormed(v, a)
    requires OutcomeOf(addr, hostname, a) == PersistFailed(false)
    ensures Next(addr, hostname, v, a) == View(a.newRoutes, v.db, Merged(a.oldRoutes, a.newRoutes))
    ensures Covers(Merged(a.oldRoutes, a.newRoutes), a.newRoutes)
  {
    ListedIsPublishable(addr, hostname, v, a);
    forall c | c in a.newRoutes && c.strip
      ensures exists r :: r in Merged(a.oldRoutes, a.newRoutes) && r.path == c.path
    {
      var r := MergedCovers(a.oldRoutes, a.newRoutes, c);
    }
  }

  /** A second attempt keeps the cover of the first one's routes at every step exactly if their stripped
      paths are stored or, if its own put works, among its own routes. */
  lemma SecondAttemptCoversIff(addr: Host, hostname: string, v: View, first: Attempt, second: Attempt)
    requires StoredOk(addr, hostname, v) && InStep(v) && WellFormed(v, first)
    requires OutcomeOf(addr, hostname, first) == PersistFailed(false)
    requires WellFormed(Next(addr, hostname, v, first), second)
    requires Allowed(addr, hostname, Merged(second.oldRoutes, second.newRoutes))
    ensures AllCovered(SagaViews(addr, hostname, Next(addr, hostname, v, first),
                                 second.oldRoutes, second.newRoutes, second.outcomes))
       <==> StrippedPaths(first.newRoutes)
            <= StrippedPaths(v.db) + (if second.outcomes.put then StrippedPaths(second.newRoutes) else {})
  {
    var drifted := Next(addr, hostname, v, first);
    HalfUndone(addr, hostname, v, first);
    ListedIsPublishable(addr, hostname, drifted, second);
    assert StrippedPaths(second.oldRoutes) == StrippedPaths(v.db);
    DriftedCoverIff(addr, hostname, drifted, second.oldRoutes, second.newRoutes, second.outcomes);
  }

  // ---- how to get there ------------------------------------------------------------------------------

  const STRIPPED := RouteInput(Utf8("/a"), Some(ORIGIN), true)

  function Alone(id: string, now: int, ids: nat -> string): seq<Route> {
    NormalRoutes(id, [Direct("/")], now, false, ids)
  }

  function WithA(id: string, now: int, ids: nat -> string): seq<Route> {
    NormalRoutes(id, [STRIPPED, Direct("/")], now, false, ids)
  }

  lemma InputsAreNormalised()
    ensures NormalizeOne(STRIPPED, false) == Ok(Core("/a", ORIGIN, true))
    ensures NormalizeOne(Direct("/"), false) == Ok(Core("/", ORIGIN, false))
    ensures Before("/a", "/") && !Before("/", "/a")
  {
    assert ByteLen("/") == 1 by { assert "/"[1..] == ""; }
    assert "/a"[1..] == "a" && "a"[1..] == "" && ByteLen("a") == 1 && ByteLen("/a") == 2;
    assert TrimSpace("/") == "/" && TrimSpace("/a") == "/a" && TrimRightSlashes("/a") == "/a";
  }

  lemma AloneIs(id: string, now: int, ids: nat -> string)
    ensures Accepted([Direct("/")], false)
    ensures Alone(id, now, ids) == [Route(ids(0), id, "/", ORIGIN, false, now, now)]
  {
    InputsAreNormalised();
    LoneRootIsAccepted(ORIGIN);
    var root := Route(ids(0), id, "/", ORIGIN, false, now, now);
    assert InputCores([Direct("/")], false) == [Core("/", ORIGIN, false)];
    assert Draft(id, InputCores([Direct("/")], false), now, ids) == [root];
    assert [root][1..] == [] && Sort(PathOf, [root]) == [root];
  }

  lemma WithAIs(id: string, now: int, ids: nat -> string)
    ensures Accepted([STRIPPED, Direct("/")], false)
    ensures WithA(id, now, ids)
         == [Route(ids(0), id, "/a", ORIGIN, true, now, now), Route(ids(1), id, "/", ORIGIN, false, now, now)]
  {
    InputsAreNormalised();
    BesideRoot(id, STRIPPED, "/a", now, ids);
  }

  /** Created with the root alone; a replacement adds a stripped "/a", and its store and its undo fail. */
  function FirstAttempt(id: string, now: int, ids: nat -> string, later: int, newIds: nat -> string): Attempt {
    Attempt(Alone(id, now, ids), WithA(id, later, newIds), Outcomes(true, false, false))
  }

  /** Then the root is sent once more, and the remote refuses. */
  function SecondAttempt(id: string, now: int, ids: nat -> string): Attempt {
    Attempt(Alone(id, now, ids), Alone(id, now, ids), Outcomes(false, true, true))
  }

  lemma DriftStarts(addr: Host, hostname: string, id: string, now: int, ids: nat -> string)
    requires ValidAddr(addr) && addr.port != "3000" && hostname != ""
    ensures var routes := Alone(id, now, ids);
            && Accepted([Direct("/")], false) && ListedAs(routes, routes) && Normalised(id, routes)
            && Allowed(addr, hostname, routes) && ValidRoutes(routes) && StrippedPaths(routes) == {}
            && InStep(View(routes, routes, Stripped(routes)))
  {
    AloneIs(id, now, ids);
    AcceptedIsNormalised(id, [Direct("/")], now, ids);
    NormalisedIsValid(id, Alone(id, now, ids));
    CreatedInStep(Alone(id, now, ids));
  }

  lemma FirstIsWellFormed(addr: Host, hostname: string, id: string, now: int, ids: nat -> string, later: int,
                          newIds: nat -> string)
    requires ValidAddr(addr) && addr.port != "3000" && hostname != ""
    ensures Accepted([STRIPPED, Direct("/")], false) && ValidRoutes(WithA(id, later, newIds))
    ensures OutcomeOf(addr, hostname, FirstAttempt(id, now, ids, later, newIds)) == PersistFailed(false)
    ensures StrippedPaths(WithA(id, later, newIds)) == {"/a"}
  {
    WithAFits(addr, hostname, id, later, newIds);
    AloneIs(id, now, ids);
    MergedFromNothing(addr, hostname, Alone(id, now, ids), WithA(id, later, newIds));
  }

  lemma WithAFits(addr: Host, hostname: string, id: string, now: int, ids: nat -> string)
    requires ValidAddr(addr) && addr.port != "3000" && hostname != ""
    ensures Accepted([STRIPPED, Direct("/")], false) && ValidRoutes(WithA(id, now, ids))
    ensures StrippedPaths(WithA(id, now, ids)) == {"/a"} && Allowed(addr, hostname, WithA(id, now, ids))
  {
    WithAIs(id, now, ids);
    AcceptedIsNormalised(id, [STRIPPED, Direct("/")], now, ids);
    NormalisedIsValid(id, WithA(id, now, ids));
    var a, root := Route(ids(0), id, "/a", ORIGIN, true, now, now), Route(ids(1), id, "/", ORIGIN, false, now, now);
    PairAllowed(addr, hostname, a, root);
    OnePathOfPair(a, root);
  }

  lemma OnePathOfPair(a: Route, root: Route)
    requires a.strip && !root.strip
    ensures StrippedPaths([a, root]) == {a.path}
  {
    assert a in [a, root];
  }

  /** With no stripped old route the transition set is the new one. */
  lemma MergedFromNothing(addr: Host, hostname: string, oldRoutes: seq<Route>, newRoutes: seq<Route>)
    requires StrippedPaths(oldRoutes) == {} && Allowed(addr, hostname, newRoutes)
    ensures Allowed(addr, hostname, Merged(oldRoutes, newRoutes))
  {
    forall r | r in Merged(oldRoutes, newRoutes) ensures OriginAllowed(addr, r) {
      MergedMembers(oldRoutes, newRoutes, r);
      assert r in oldRoutes && r.strip ==> r.path in StrippedPaths(oldRoutes);
    }
  }

  /** Two replacements lead there from a fresh domain: after the first the remote serves "/a" through the
      proxy, and the second, though it changes nothing but the proxy's entry, takes its cover away. A
      restart in its place, or a deletion whose row stays, does the same. */
  lemma DriftLosesCover(addr: Host, hostname: string, id: string, now: int, ids: nat -> string, later: int,
                        newIds: nat -> string,
                        domains: Domains, restart: int, freshIds: nat -> string)
    requires ValidAddr(addr) && addr.port != "3000" && hostname != ""
    ensures var stored := Alone(id, now, ids);
            var v := View(stored, stored, Stripped(stored));
            var first, second := FirstAttempt(id, now, ids, later, newIds), SecondAttempt(id, now, ids);
            var drifted := Next(addr, hostname, v, first);
            var after := EntriesAfter(addr, domains, id, hostname, stored, false);
            && InStep(v) && StoredOk(addr, hostname, v) && WellFormed(v, first)
            && OutcomeOf(addr, hostname, first) == PersistFailed(false) && Covers(drifted.proxy, drifted.active)
            && WellFormed(drifted, second)
            && !AllCovered(SagaViews(addr, hostname, drifted, second.oldRoutes, second.newRoutes, second.outcomes))
            && Loadable(addr, hostname, id, stored, restart, freshIds)
            && !Covers(Reloaded(id, stored, restart, freshIds), drifted.active)
            && id in after && !Covers(after[id].routes, drifted.active)
  {
    var stored := Alone(id, now, ids);
    var v := View(stored, stored, Stripped(stored));
    var first, second := FirstAttempt(id, now, ids, later, newIds), SecondAttempt(id, now, ids);
    DriftStarts(addr, hostname, id, now, ids);
    FirstIsWellFormed(addr, hostname, id, now, ids, later, newIds);
    ValidRoutesDispatch(stored);
    HalfUndone(addr, hostname, v, first);
    MergedFromNothing(addr, hostname, stored, stored);
    SecondAttemptCoversIff(addr, hostname, v, first, second);
    var row := Row(hostname, "", "", "", ORIGIN, Pending, 0, stored, now);
    AloneReloads(addr, row, id, now, ids, restart, freshIds);
    RestartCoversIff(addr, id, row, stored, restart, freshIds, first.newRoutes);
    DeletionCoversIff(addr, id, row, domains, stored, first.newRoutes);
    assert "/a" in StrippedPaths(first.newRoutes);
  }

  lemma AloneReloads(addr: Host, row: Row, id: string, now: int, ids: nat -> string, restart: int,
                     freshIds: nat -> string)
    requires row.routes == Alone(id, now, ids) && Settled(addr, id, row, row.routes)
    ensures Loadable(addr, row.hostname, id, row.routes, restart, freshIds) && ReadStripped(row.routes) == {}
  {
    AloneIs(id, now, ids);
    RowReloadsIff(addr, id, row, row.routes, restart, freshIds);
  }
}
