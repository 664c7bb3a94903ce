/** What normalisation promises: independence of the input order, a sorted result, and when a stored
    set survives being normalised again. */
module RouteLaws {
  import opened Prelude
  import opened PathOrder
  import opened RoutePath
  import opened Routes

  // ---- order independence --------------------------------------------------------------------

  lemma {:induction false} InsertCores(r: Route, s: seq<Route>)
    ensures Cores(Insert(PathOf, r, s)) == Insert(PathOfCore, CoreOf(r), Cores(s))
  {
    if s != [] {
      CoresStep(s);
      if Before(s[0].path, r.path) {
        InsertCores(r, s[1..]);
        CoresStep([s[0]] + Insert(PathOf, r, s[1..]));
      } else {
        CoresStep([r] + s);
      }
    }
  }

  lemma CoresStep(s: seq<Route>)
    requires s != []
    ensures Cores(s)[1..] == Cores(s[1..]) && Cores(s) == [CoreOf(s[0])] + Cores(s[1..])
  {
  }

  /** Sorting routes and then forgetting their identity is sorting what is left of them. */
  lemma {:induction false} SortCores(s: seq<Route>)
    ensures Cores(Sort(PathOf, s)) == Sort(PathOfCore, Cores(s))
  {
    if s != [] {
      SortCores(s[1..]);
      InsertCores(s[0], Sort(PathOf, s[1..]));
      assert Cores(s)[1..] == Cores(s[1..]);
    }
  }

  lemma NormalCores(domainId: string, inputs: seq<RouteInput>, now: int, allowPath: bool, ids: nat -> string)
    ensures Cores(NormalRoutes(domainId, inputs, now, allowPath, ids))
         == Sort(PathOfCore, InputCores(inputs, allowPath))
  {
    var cores := InputCores(inputs, allowPath);
    SortCores(Draft(domainId, cores, now, ids));
    assert Cores(Draft(domainId, cores, now, ids)) == cores;
  }

  lemma AllOkPermuted(a: seq<RouteInput>, b: seq<RouteInput>, allowPath: bool)
    requires multiset(a) == multiset(b) && AllOk(a, allowPath)
    ensures AllOk(b, allowPath)
  {
    forall input | input in b ensures NormalizeOne(input, allowPath).Ok? {
      assert input in multiset(b);
    }
  }

  lemma AcceptedPermuted(a: seq<RouteInput>, b: seq<RouteInput>, allowPath: bool)
    requires multiset(a) == multiset(b) && Accepted(a, allowPath)
    ensures Accepted(b, allowPath)
    ensures multiset(InputCores(a, allowPath)) == multiset(InputCores(b, allowPath))
  {
    assert |a| == |multiset(a)| == |multiset(b)| == |b|;
    AllOkPermuted(a, b, allowPath);
    MapMultiset(CoreFn(allowPath), a, b);
    var pa, pb := CorePaths(InputCores(a, allowPath)), CorePaths(InputCores(b, allowPath));
    MapMultiset(PathOfCore, InputCores(a, allowPath), InputCores(b, allowPath));
    DistinctMultiset(pa);
    DistinctMultiset(pb);
    assert "/" in multiset(pa);
    assert "/" in multiset(pb);
  }

  /** The order a client lists its routes in changes neither whether they are taken nor the
      resulting list of paths, origins and strip flags. */
  lemma NormalisationIsOrderFree(domainId: string, a: seq<RouteInput>, b: seq<RouteInput>, now: int, allowPath: bool,
                                 idsA: nat -> string, idsB: nat -> string)
    requires multiset(a) == multiset(b)
    ensures Accepted(a, allowPath) <==> Accepted(b, allowPath)
    ensures Accepted(a, allowPath) ==>
              Cores(NormalRoutes(domainId, a, now, allowPath, idsA)) == Cores(NormalRoutes(domainId, b, now,
                  allowPath, idsB))
  {
    if Accepted(b, allowPath) { AcceptedPermuted(b, a, allowPath); }
    if Accepted(a, allowPath) {
      AcceptedPermuted(a, b, allowPath);
      NormalCores(domainId, a, now, allowPath, idsA);
      NormalCores(domainId, b, now, allowPath, idsB);
      var ca, cb := InputCores(a, allowPath), InputCores(b, allowPath);
      SortIsCanonical(PathOfCore, ca, cb);
    }
  }

  lemma SortIsCanonical(key: Core -> string, a: seq<Core>, b: seq<Core>)
    requires multiset(a) == multiset(b) && Distinct(MapSeq(key, a))
    ensures Sort(key, a) == Sort(key, b)
  {
    SortSorted(key, a);
    SortSorted(key, b);
    SortMultiset(key, a);
    SortMultiset(key, b);
    KeysDistinctPermuted(key, a, Sort(key, a));
    SortedUnique(key, Sort(key, a), Sort(key, b));
  }

  lemma KeysDistinctPermuted<T>(key: T -> string, a: seq<T>, b: seq<T>)
    requires multiset(a) == multiset(b) && Distinct(MapSeq(key, a))
    ensures KeysDistinct(key, b)
  {
    MapMultiset(key, a, b);
    DistinctMultiset(MapSeq(key, a));
    DistinctMultiset(MapSeq(key, b));
    assert forall i :: 0 <= i < |b| ==> MapSeq(key, b)[i] == key(b[i]);
  }

  // ---- what an accepted set looks like -------------------------------------------------------

  /** A route list fit for the rest of the service: sorted by Go's order on distinct well-shaped
      paths, with a root route that does not strip. */
  ghost predicate ValidRoutes(routes: seq<Route>) {
    && 1 <= |routes| <= MAX_DOMAIN_ROUTES
    && Sorted(PathOf, routes)
    && KeysDistinct(PathOf, routes)
    && (forall r :: r in routes ==> WellShaped(r.path) && (r.path == "/" ==> !r.strip))
    && (exists r :: r in routes && r.path == "/")
  }

  lemma OneIsWellShaped(input: RouteInput, allowPath: bool)
    requires NormalizeOne(input, allowPath).Ok?
    ensures WellShaped(CoreOr(input, allowPath).path)
    ensures CoreOr(input, allowPath).path == "/" ==> !CoreOr(input, allowPath).strip
  {
    NormalizedIsWellShaped(input.path);
  }

  lemma DraftIsValid(domainId: string, inputs: seq<RouteInput>, now: int, allowPath: bool, ids: nat -> string, r: Route)
    requires AllOk(inputs, allowPath)
    requires r in Draft(domainId, InputCores(inputs, allowPath), now, ids)
    ensures WellShaped(r.path) && (r.path == "/" ==> !r.strip) && r.domainId == domainId
  {
    var cores := InputCores(inputs, allowPath);
    var i :| 0 <= i < |inputs| && r == Draft(domainId, cores, now, ids)[i];
    assert inputs[i] in inputs && cores[i] == CoreOr(inputs[i], allowPath);
    OneIsWellShaped(inputs[i], allowPath);
  }

  /** Every accepted set becomes a valid list. */
  lemma NormalRoutesAreValid(domainId: string, inputs: seq<RouteInput>, now: int, allowPath: bool, ids: nat -> string)
    requires Accepted(inputs, allowPath)
    ensures ValidRoutes(NormalRoutes(domainId, inputs, now, allowPath, ids))
  {
    var cores := InputCores(inputs, allowPath);
    var draft := Draft(domainId, cores, now, ids);
    var routes := NormalRoutes(domainId, inputs, now, allowPath, ids);
    SortSorted(PathOf, draft);
    SortMultiset(PathOf, draft);
    assert MapSeq(PathOf, draft) == CorePaths(cores);
    KeysDistinctPermuted(PathOf, draft, routes);
    forall r | r in routes ensures WellShaped(r.path) && (r.path == "/" ==> !r.strip) {
      assert r in multiset(routes);
      DraftIsValid(domainId, inputs, now, allowPath, ids, r);
    }
    var i :| 0 <= i < |cores| && CorePaths(cores)[i] == "/";
    assert draft[i] in multiset(routes);
    assert draft[i] in routes && draft[i].path == "/";
  }

  // ---- reading a stored set back ---------------------------------------------------------------

  /** A stored route comes back as itself. */
  ghost predicate Stable(r: Route) {
    NormalizeOne(InputOf(r), true) == Ok(CoreOf(r))
  }

  ghost predicate AllStable(routes: seq<Route>) {
    forall r :: r in routes ==> Stable(r)
  }

  lemma StableCores(routes: seq<Route>)
    requires AllStable(routes)
    ensures InputCores(InputsOf(routes), true) == Cores(routes)
    ensures AllOk(InputsOf(routes), true)
  {
    forall i | 0 <= i < |routes| ensures InputCores(InputsOf(routes), true)[i] == CoreOf(routes[i]) {
      assert Stable(routes[i]);
    }
    forall input | input in InputsOf(routes) ensures NormalizeOne(input, true).Ok? {
      var i :| 0 <= i < |routes| && input == InputsOf(routes)[i];
      assert Stable(routes[i]);
    }
  }

  lemma MetadataFinds(persisted: seq<Route>, r: Route)
    requires r in persisted && KeysDistinct(PathOf, persisted)
    ensures r.path in Metadata(persisted) && Metadata(persisted)[r.path] == r
  {
    var m := Metadata(persisted)[r.path];
    var i :| 0 <= i < |persisted| && persisted[i] == m;
    var j :| 0 <= j < |persisted| && persisted[j] == r;
    assert PathOf(persisted[i]) == PathOf(persisted[j]);
  }

  lemma {:induction false} SortSameCores(a: seq<Route>, b: seq<Route>)
    requires Cores(a) == Cores(b)
    ensures Cores(Sort(PathOf, a)) == Cores(Sort(PathOf, b))
  {
    SortCores(a);
    SortCores(b);
  }

  /** Reading back a stored set gives the very routes that were stored, IDs and timestamps
      included, in Go's order whatever order the rows came in. */
  lemma PersistedRoutesAreRestored(domainId: string, persisted: seq<Route>, now: int, ids: nat -> string)
    requires 1 <= |persisted| <= MAX_DOMAIN_ROUTES && KeysDistinct(PathOf, persisted)
    requires exists r :: r in persisted && r.path == "/"
    requires AllStable(persisted)
    requires forall r :: r in persisted ==> r.domainId == domainId
    ensures Accepted(InputsOf(persisted), true)
    ensures PersistedRoutes(domainId, persisted, now, ids) == Sort(PathOf, persisted)
  {
    StableCores(persisted);
    PathsOfCores(persisted);
    DraftRestored(domainId, persisted, Draft(domainId, Cores(persisted), now, ids));
  }

  lemma DraftRestored(domainId: string, persisted: seq<Route>, draft: seq<Route>)
    requires KeysDistinct(PathOf, persisted) && |draft| == |persisted|
    requires forall r :: r in persisted ==> r.domainId == domainId
    requires forall i :: 0 <= i < |draft| ==> draft[i].domainId == domainId && CoreOf(draft[i]) == Cores(persisted)[i]
    ensures MapSeq(RestoredFn(persisted), Sort(PathOf, draft)) == Sort(PathOf, persisted)
  {
    assert Cores(draft) == Cores(persisted);
    SortSameCores(draft, persisted);
    SortedMembers(draft);
    SortedMembers(persisted);
    IdentitiesRestored(domainId, persisted, Sort(PathOf, draft), Sort(PathOf, persisted));
  }

  lemma SortedMembers(routes: seq<Route>)
    ensures forall r :: r in Sort(PathOf, routes) ==> r in routes
  {
    SortMultiset(PathOf, routes);
    forall r | r in Sort(PathOf, routes) ensures r in routes { assert r in multiset(Sort(PathOf, routes)); }
  }

  lemma IdentitiesRestored(domainId: string, persisted: seq<Route>, renewed: seq<Route>, back: seq<Route>)
    requires KeysDistinct(PathOf, persisted) && Cores(renewed) == Cores(back)
    requires forall r :: r in persisted ==> r.domainId == domainId
    requires forall r :: r in renewed ==> r.domainId == domainId
    requires forall r :: r in back ==> r in persisted
    ensures MapSeq(RestoredFn(persisted), renewed) == back
  {
    assert |renewed| == |Cores(renewed)| == |back|;
    forall i | 0 <= i < |renewed| ensures Restored(Metadata(persisted), renewed[i]) == back[i] {
      assert Cores(renewed)[i] == CoreOf(renewed[i]) && Cores(back)[i] == CoreOf(back[i]);
      IdentityRestored(persisted, renewed[i], back[i]);
    }
  }

  lemma IdentityRestored(persisted: seq<Route>, renewed: Route, original: Route)
    requires original in persisted && KeysDistinct(PathOf, persisted)
    requires CoreOf(renewed) == CoreOf(original) && renewed.domainId == original.domainId
    ensures Restored(Metadata(persisted), renewed) == original
  {
    MetadataFinds(persisted, original);
  }

  lemma PathsOfCores(routes: seq<Route>)
    requires KeysDistinct(PathOf, routes)
    requires exists r :: r in routes && r.path == "/"
    ensures Distinct(CorePaths(Cores(routes))) && "/" in CorePaths(Cores(routes))
  {
    var paths := CorePaths(Cores(routes));
    assert forall i :: 0 <= i < |routes| ==> paths[i] == PathOf(routes[i]);
    var r :| r in routes && r.path == "/";
    var i :| 0 <= i < |routes| && routes[i] == r;
    assert paths[i] == "/";
  }

  lemma {:induction false} NormalizeShrinks(p: string)
    requires NormalizePath(Utf8(p)).Ok?
    ensures NormalizePath(Utf8(p)).value == p || |NormalizePath(Utf8(p)).value| < |p|
  {
    TrimLeftShrinks(p);
    TrimRightShape(TrimLeftSpace(p));
    TrimRightSlashesShape(TrimSpace(p));
  }

  lemma {:induction false} TrimLeftShrinks(s: string)
    ensures TrimLeftSpace(s) == s || |TrimLeftSpace(s)| < |s|
  {
    if s != "" && IsSpace(s[0]) { TrimLeftShrinks(s[1..]); }
  }

  lemma {:induction false} LongestUnstable(routes: seq<Route>) returns (longest: Route)
    requires !AllStable(routes)
    ensures longest in routes && !Stable(longest)
    ensures forall r :: r in routes && !Stable(r) ==> |r.path| <= |longest.path|
  {
    var rest := routes[1..];
    assert routes == [routes[0]] + rest;
    if AllStable(rest) {
      longest := routes[0];
    } else {
      longest := LongestUnstable(rest);
      if !Stable(routes[0]) && |longest.path| < |routes[0].path| { longest := routes[0]; }
    }
  }

  /** A read-back set lists only normalised paths of stored rows. */
  lemma PersistedComesFrom(domainId: string, persisted: seq<Route>, now: int, ids: nat -> string, q: Route)
    returns (p: Route)
    requires q in PersistedRoutes(domainId, persisted, now, ids)
    ensures p in persisted && CoreOr(InputOf(p), true) == CoreOf(q)
  {
    var inputs := InputsOf(persisted);
    var normal := NormalRoutes(domainId, inputs, now, true, ids);
    var k :| 0 <= k < |normal| && q == Restored(Metadata(persisted), normal[k]);
    assert CoreOf(q) == CoreOf(normal[k]);
    var draft := Draft(domainId, InputCores(inputs, true), now, ids);
    SortMultiset(PathOf, draft);
    assert normal[k] in multiset(normal);
    var i :| 0 <= i < |draft| && draft[i] == normal[k];
    assert InputCores(inputs, true)[i] == CoreOr(inputs[i], true);
    p := persisted[i];
  }

  ghost predicate OriginStable(r: Route) {
    NormalizeOrigin(Some(r.origin), r.strip, true) == Ok(r.origin)
  }

  lemma ShorterThanSource(p: Route, q: Route)
    requires NormalizeOne(InputOf(p), true) == Ok(CoreOf(q))
    requires OriginStable(p) && !Stable(q)
    ensures !Stable(p) && |q.path| < |p.path|
  {
    NormalizeShrinks(p.path);
  }

  /** A set that comes back unchanged was stable. */
  lemma UnchangedMeansStable(domainId: string, persisted: seq<Route>, now: int, ids: nat -> string)
    requires Accepted(InputsOf(persisted), true)
    requires multiset(PersistedRoutes(domainId, persisted, now, ids)) == multiset(persisted)
    requires forall r :: r in persisted ==> OriginStable(r)
    ensures AllStable(persisted)
  {
    if !AllStable(persisted) {
      var q := LongestUnstable(persisted);
      assert q in multiset(persisted);
      assert q in PersistedRoutes(domainId, persisted, now, ids);
      var p := PersistedComesFrom(domainId, persisted, now, ids, q);
      InputAccepted(persisted, p);
      ShorterThanSource(p, q);
    }
  }

  lemma InputAccepted(persisted: seq<Route>, p: Route)
    requires AllOk(InputsOf(persisted), true) && p in persisted
    ensures NormalizeOne(InputOf(p), true).Ok?
  {
    var i :| 0 <= i < |persisted| && persisted[i] == p;
    assert InputsOf(persisted)[i] == InputOf(p);
  }

  /** A normalised route is stable exactly when its path is canonical. */
  lemma StableIffCanonical(input: RouteInput, allowPath: bool, r: Route)
    requires NormalizeOne(input, allowPath).Ok? && CoreOf(r) == CoreOr(input, allowPath)
    ensures Stable(r) <==> r.path != "" && !IsSpace(r.path[|r.path| - 1])
    ensures OriginStable(r)
  {
    NormalizedIsCanonicalIff(input.path);
    NormalizedOriginIsFixed(input.origin, input.strip, allowPath);
  }

  lemma AcceptedStableIff(domainId: string, inputs: seq<RouteInput>, now: int, allowPath: bool,
                          ids: nat -> string, r: Route)
    requires AllOk(inputs, allowPath) && r in NormalRoutes(domainId, inputs, now, allowPath, ids)
    ensures Stable(r) <==> r.path != "" && !IsSpace(r.path[|r.path| - 1])
    ensures r.domainId == domainId && OriginStable(r)
  {
    var draft := Draft(domainId, InputCores(inputs, allowPath), now, ids);
    SortMultiset(PathOf, draft);
    assert r in multiset(NormalRoutes(domainId, inputs, now, allowPath, ids));
    var i :| 0 <= i < |draft| && draft[i] == r;
    assert inputs[i] in inputs && InputCores(inputs, allowPath)[i] == CoreOr(inputs[i], allowPath);
    StableIffCanonical(inputs[i], allowPath, r);
  }

  ghost predicate CanonicalPaths(routes: seq<Route>) {
    forall r :: r in routes ==> r.path != "" && !IsSpace(r.path[|r.path| - 1])
  }

  /** The set the service accepted and stored is read back as it was, exactly when none of its paths
      is empty or ends in a space. A single other path makes the start-up reconciliation refuse the
      set or alter it. */
  lemma StoredSetSurvivesIff(domainId: string, inputs: seq<RouteInput>, now: int, allowPath: bool, ids: nat -> string,
                             persisted: seq<Route>, later: int, newIds: nat -> string)
    requires Accepted(inputs, allowPath)
    requires multiset(persisted) == multiset(NormalRoutes(domainId, inputs, now, allowPath, ids))
    ensures CanonicalPaths(persisted) <==>
            && Accepted(InputsOf(persisted), true)
            && PersistedRoutes(domainId, persisted, later, newIds)
               == NormalRoutes(domainId, inputs, now, allowPath, ids)
  {
    var routes := NormalRoutes(domainId, inputs, now, allowPath, ids);
    assert |persisted| == |multiset(persisted)| == |multiset(routes)| == |routes|;
    NormalRoutesAreValid(domainId, inputs, now, allowPath, ids);
    CanonicalMeansStable(domainId, inputs, now, allowPath, ids, persisted);
    if CanonicalPaths(persisted) {
      RestoredAsStored(domainId, routes, persisted, later, newIds);
    } else if Accepted(InputsOf(persisted), true) && PersistedRoutes(domainId, persisted, later, newIds) == routes {
      UnchangedMeansStable(domainId, persisted, later, newIds);
    }
  }

  lemma CanonicalMeansStable(domainId: string, inputs: seq<RouteInput>, now: int, allowPath: bool, ids: nat -> string,
                             persisted: seq<Route>)
    requires Accepted(inputs, allowPath)
    requires multiset(persisted) == multiset(NormalRoutes(domainId, inputs, now, allowPath, ids))
    ensures CanonicalPaths(persisted) <==> AllStable(persisted)
    ensures forall r :: r in persisted ==> r.domainId == domainId && OriginStable(r)
  {
    forall r | r in persisted
      ensures r.domainId == domainId && OriginStable(r)
      ensures Stable(r) <==> r.path != "" && !IsSpace(r.path[|r.path| - 1])
    {
      assert r in multiset(persisted);
      AcceptedStableIff(domainId, inputs, now, allowPath, ids, r);
    }
  }

  lemma RestoredAsStored(domainId: string, routes: seq<Route>, persisted: seq<Route>, later: int, newIds: nat -> string)
    requires ValidRoutes(routes) && multiset(persisted) == multiset(routes) && |persisted| == |routes|
    requires AllStable(persisted)
    requires forall r :: r in persisted ==> r.domainId == domainId
    ensures Accepted(InputsOf(persisted), true)
    ensures PersistedRoutes(domainId, persisted, later, newIds) == routes
  {
    PathsDistinct(routes);
    KeysDistinctPermuted(PathOf, routes, persisted);
    var root :| root in routes && root.path == "/";
    assert root in multiset(persisted);
    PersistedRoutesAreRestored(domainId, persisted, later, newIds);
    SortSorted(PathOf, persisted);
    SortMultiset(PathOf, persisted);
    SortedUnique(PathOf, routes, Sort(PathOf, persisted));
  }

  lemma PathsDistinct(routes: seq<Route>)
    requires KeysDistinct(PathOf, routes)
    ensures Distinct(MapSeq(PathOf, routes))
  {
    assert forall i :: 0 <= i < |routes| ==> MapSeq(PathOf, routes)[i] == PathOf(routes[i]);
  }

  // ---- the deprecated root-only update ---------------------------------------------------------

  function WithRootOrigin(origin: Option<Url>): RouteInput -> RouteInput {
    (input: RouteInput) => if input.path == Utf8("/") then input.(origin := origin) else input
  }

  /** UpdateOrigin's loop: the stored routes as inputs, with a new origin on the root. */
  method RootReplaced(routes: seq<Route>, origin: Option<Url>) returns (inputs: seq<RouteInput>)
    ensures inputs == MapSeq(WithRootOrigin(origin), InputsOf(routes))
  {
    inputs := RouteInputs(routes);
    ghost var before := inputs;
    for i := 0 to |inputs|
      invariant |inputs| == |before|
      invariant forall k :: 0 <= k < i ==> inputs[k] == WithRootOrigin(origin)(before[k])
      invariant forall k :: i <= k < |inputs| ==> inputs[k] == before[k]
    {
      if inputs[i].path == Utf8("/") {
        inputs := inputs[i := inputs[i].(origin := origin)];
      }
    }
  }
}
