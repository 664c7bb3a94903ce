/** Which stored route sets the service takes a second time: when they are read back at start-up, and
    when UpdateOrigin sends them through the normaliser with another root origin. */
module ReadBack {
  import opened Prelude
  import opened PathOrder
  import opened RoutePath
  import opened Routes
  import opened RouteLaws

  // ---- reading back at start-up ----------------------------------------------------------------

  /** What a stored path is read as. */
  function ReadPath(p: string): string {
    if TrimSpace(p) == "/" then "/" else TrimRightSlashes(TrimSpace(p))
  }

  /** The only stored path the normaliser refuses outright is the empty one. */
  lemma StoredPathReads(p: string)
    requires WellShaped(p)
    ensures NormalizePath(Utf8(p)) == if p == "" then Err(BadPath) else Ok(ReadPath(p))
  {
    if p != "" {
      assert TrimLeftSpace(p) == p;
      TrimRightShape(p);
      var t := TrimSpace(p);
      TrimRightKeepsHead(p);
      assert p == t + p[|t|..];
      ByteLenConcat(t, p[|t|..]);
      assert forall c :: c in t ==> c in p;
    }
  }

  lemma {:induction false} TrimRightKeepsHead(p: string)
    requires p != "" && p[0] == '/'
    ensures TrimRightSpace(p) != ""
  {
    if IsSpace(p[|p| - 1]) { TrimRightKeepsHead(p[..|p| - 1]); }
  }

  /** A stored route, read back on its own. */
  ghost predicate Readable(r: Route) {
    WellShaped(r.path) && OriginStable(r) && (r.path == "/" ==> !r.strip)
  }

  lemma OneReads(r: Route)
    requires Readable(r)
    ensures NormalizeOne(InputOf(r), true).Ok? <==> r.path != "" && !(ReadPath(r.path) == "/" && r.strip)
    ensures NormalizeOne(InputOf(r), true).Ok? ==> CoreOr(InputOf(r), true).path == ReadPath(r.path)
  {
    StoredPathReads(r.path);
  }

  function ReadPaths(routes: seq<Route>): seq<string> { MapSeq(ReadPath, Paths(routes)) }

  ghost predicate NoneEmpty(routes: seq<Route>) { forall r :: r in routes ==> r.path != "" }

  lemma ReadInputs(routes: seq<Route>)
    requires forall r :: r in routes ==> Readable(r)
    requires AllOk(InputsOf(routes), true)
    ensures NoneEmpty(routes) && CorePaths(InputCores(InputsOf(routes), true)) == ReadPaths(routes)
  {
    forall i | 0 <= i < |routes|
      ensures routes[i].path != "" && CorePaths(InputCores(InputsOf(routes), true))[i] == ReadPaths(routes)[i]
    {
      InputAccepted(routes, routes[i]);
      OneReads(routes[i]);
    }
  }

  /** A route that reads as the root beside the root makes the set ambiguous. */
  lemma OnlyTheRootReadsAsRoot(routes: seq<Route>, root: Route, r: Route)
    requires Distinct(ReadPaths(routes)) && root in routes && r in routes
    requires root.path == "/" && ReadPath(r.path) == "/"
    ensures r == root
  {
    assert TrimSpace("/") == "/";
    var i :| 0 <= i < |routes| && routes[i] == root;
    var j :| 0 <= j < |routes| && routes[j] == r;
    assert ReadPaths(routes)[i] == ReadPaths(routes)[j];
  }

  lemma AllRead(routes: seq<Route>, root: Route)
    requires forall r :: r in routes ==> Readable(r)
    requires root in routes && root.path == "/"
    requires NoneEmpty(routes) && Distinct(ReadPaths(routes))
    ensures AllOk(InputsOf(routes), true)
  {
    forall input | input in InputsOf(routes) ensures NormalizeOne(input, true).Ok? {
      var i :| 0 <= i < |routes| && input == InputsOf(routes)[i];
      if ReadPath(routes[i].path) == "/" { OnlyTheRootReadsAsRoot(routes, root, routes[i]); }
      OneReads(routes[i]);
    }
  }

  /** A stored set is taken back exactly when no path is empty and no two paths are read as the same. */
  lemma TakenBackIff(routes: seq<Route>)
    requires 1 <= |routes| <= MAX_DOMAIN_ROUTES
    requires forall r :: r in routes ==> Readable(r)
    requires exists r :: r in routes && r.path == "/"
    ensures Accepted(InputsOf(routes), true) <==> NoneEmpty(routes) && Distinct(ReadPaths(routes))
  {
    var root :| root in routes && root.path == "/";
    if NoneEmpty(routes) && Distinct(ReadPaths(routes)) { AllRead(routes, root); }
    if AllOk(InputsOf(routes), true) {
      ReadInputs(routes);
      assert TrimSpace("/") == "/";
      var i :| 0 <= i < |routes| && routes[i] == root;
      assert ReadPaths(routes)[i] == "/";
    }
  }

  lemma StoredAreReadable(domainId: string, inputs: seq<RouteInput>, now: int, allowPath: bool, ids: nat -> string,
                          stored: seq<Route>)
    requires Accepted(inputs, allowPath)
    requires multiset(stored) == multiset(NormalRoutes(domainId, inputs, now, allowPath, ids))
    ensures 1 <= |stored| <= MAX_DOMAIN_ROUTES && forall r :: r in stored ==> Readable(r)
    ensures exists r :: r in stored && r.path == "/"
  {
    var routes := NormalRoutes(domainId, inputs, now, allowPath, ids);
    assert |stored| == |multiset(stored)| == |multiset(routes)| == |routes|;
    NormalRoutesAreValid(domainId, inputs, now, allowPath, ids);
    forall r | r in stored ensures Readable(r) {
      assert r in multiset(stored);
      AcceptedStableIff(domainId, inputs, now, allowPath, ids, r);
    }
    var root :| root in routes && root.path == "/";
    assert root in multiset(stored);
  }

  /** The same for the sets the service itself accepted and stored, in whatever order SQLite lists them. */
  lemma StoredSetIsTakenBackIff(domainId: string, inputs: seq<RouteInput>, now: int, allowPath: bool,
                                ids: nat -> string,
                                stored: seq<Route>)
    requires Accepted(inputs, allowPath)
    requires multiset(stored) == multiset(NormalRoutes(domainId, inputs, now, allowPath, ids))
    ensures Accepted(InputsOf(stored), true) <==> NoneEmpty(stored) && Distinct(ReadPaths(stored))
  {
    StoredAreReadable(domainId, inputs, now, allowPath, ids, stored);
    TakenBackIff(stored);
  }

  // ---- a new root origin -----------------------------------------------------------------------

  function WithRoot(u: Url): Route -> Route {
    (r: Route) => if r.path == "/" then r.(origin := u) else r
  }

  /** What UpdateOrigin sends to the normaliser. */
  function RootInputs(origin: Option<Url>, stored: seq<Route>): seq<RouteInput> {
    MapSeq(WithRootOrigin(origin), InputsOf(stored))
  }

  /** A route other than the root keeps its origin under the stricter rule for new sets, which does
      not let a direct route's origin have a path. */
  ghost predicate Strict(r: Route) { r.path != "/" ==> r.origin.path == "" }

  predicate Plain(origin: Option<Url>) { NormalizeOrigin(origin, false, false).Ok? }

  function PlainUrl(origin: Option<Url>): Url {
    if Plain(origin) then NormalizeOrigin(origin, false, false).value else NO_URL
  }

  /** What a stored route is read as, the root with the new origin. */
  function Reread(u: Url): Route -> Core {
    (r: Route) => Core(ReadPath(r.path), if r.path == "/" then u else r.origin, r.strip)
  }

  lemma OneWithRoot(r: Route, origin: Option<Url>)
    requires Readable(r)
    ensures var one := NormalizeOne(WithRootOrigin(origin)(InputOf(r)), false);
            && (one.Ok? <==> && r.path != "" && !(ReadPath(r.path) == "/" && r.strip)
                             && (if r.path == "/" then Plain(origin) else Strict(r)))
            && (one.Ok? ==> one.value == Reread(PlainUrl(origin))(r))
  {
    StoredPathReads(r.path);
    assert TrimSpace("/") == "/";
  }

  lemma RootInput(origin: Option<Url>, stored: seq<Route>, r: Route)
    requires r in stored && AllOk(RootInputs(origin, stored), false)
    ensures NormalizeOne(WithRootOrigin(origin)(InputOf(r)), false).Ok?
  {
    var i :| 0 <= i < |stored| && stored[i] == r;
    assert RootInputs(origin, stored)[i] == WithRootOrigin(origin)(InputOf(r));
    assert RootInputs(origin, stored)[i] in RootInputs(origin, stored);
  }

  ghost predicate AllReadable(stored: seq<Route>) {
    && 1 <= |stored| <= MAX_DOMAIN_ROUTES
    && (forall r :: r in stored ==> Readable(r))
    && (exists r :: r in stored && r.path == "/")
  }

  lemma RootCores(origin: Option<Url>, stored: seq<Route>)
    requires AllReadable(stored) && AllOk(RootInputs(origin, stored), false)
    ensures InputCores(RootInputs(origin, stored), false) == MapSeq(Reread(PlainUrl(origin)), stored)
    ensures CorePaths(InputCores(RootInputs(origin, stored), false)) == ReadPaths(stored)
  {
    forall i | 0 <= i < |stored|
      ensures InputCores(RootInputs(origin, stored), false)[i] == Reread(PlainUrl(origin))(stored[i])
    {
      RootInput(origin, stored, stored[i]);
      OneWithRoot(stored[i], origin);
    }
  }

  /** Everything the update needs of the stored set and of the new origin. */
  ghost predicate Updatable(origin: Option<Url>, stored: seq<Route>) {
    Plain(origin) && (forall r :: r in stored ==> Strict(r)) && NoneEmpty(stored) && Distinct(ReadPaths(stored))
  }

  lemma UpdatableInputsOk(origin: Option<Url>, stored: seq<Route>)
    requires AllReadable(stored) && Updatable(origin, stored)
    ensures AllOk(RootInputs(origin, stored), false)
  {
    var root :| root in stored && root.path == "/";
    var inputs := RootInputs(origin, stored);
    forall input | input in inputs ensures NormalizeOne(input, false).Ok? {
      var i :| 0 <= i < |inputs| && inputs[i] == input;
      var r := stored[i];
      assert r in stored && input == WithRootOrigin(origin)(InputOf(r));
      if ReadPath(r.path) == "/" { OnlyTheRootReadsAsRoot(stored, root, r); }
      OneWithRoot(r, origin);
    }
  }

  lemma OkInputsUpdatable(origin: Option<Url>, stored: seq<Route>)
    requires AllReadable(stored) && AllOk(RootInputs(origin, stored), false)
    ensures Plain(origin) && (forall r :: r in stored ==> Strict(r)) && NoneEmpty(stored)
  {
    var root :| root in stored && root.path == "/";
    RootInput(origin, stored, root);
    OneWithRoot(root, origin);
    forall r | r in stored ensures Strict(r) && r.path != "" {
      RootInput(origin, stored, r);
      OneWithRoot(r, origin);
    }
  }

  /** UpdateOrigin on a stored set, in whatever order SQLite lists it, is taken exactly when the new origin
      is a plain one, every route but the root has an origin without a path, no path is empty and no two
      paths are read as the same. */
  lemma RootUpdateTakenIff(origin: Option<Url>, stored: seq<Route>)
    requires AllReadable(stored)
    ensures Accepted(RootInputs(origin, stored), false) <==> Updatable(origin, stored)
  {
    if Updatable(origin, stored) { UpdatableInputsOk(origin, stored); }
    if AllOk(RootInputs(origin, stored), false) {
      OkInputsUpdatable(origin, stored);
      RootCores(origin, stored);
      RootIsRead(stored);
    }
  }

  lemma RootIsRead(stored: seq<Route>)
    requires exists r :: r in stored && r.path == "/"
    ensures "/" in ReadPaths(stored)
  {
    assert TrimSpace("/") == "/";
    var i :| 0 <= i < |stored| && stored[i].path == "/";
    assert ReadPaths(stored)[i] == "/";
  }

  /** What a taken update stores: every route as it is read, the root with the new origin. */
  lemma RootUpdateStores(domainId: string, origin: Option<Url>, stored: seq<Route>, now: int, ids: nat -> string)
    requires AllReadable(stored) && Updatable(origin, stored)
    ensures Cores(NormalRoutes(domainId, RootInputs(origin, stored), now, false, ids))
         == Sort(PathOfCore, MapSeq(Reread(PlainUrl(origin)), stored))
  {
    UpdatableInputsOk(origin, stored);
    RootCores(origin, stored);
    NormalCores(domainId, RootInputs(origin, stored), now, false, ids);
  }

  lemma CanonicalReads(p: string)
    requires WellShaped(p) && p != ""
    ensures ReadPath(p) == p <==> !IsSpace(p[|p| - 1])
    ensures ReadPath(p) == p || |ReadPath(p)| < |p|
  {
    assert TrimLeftSpace(p) == p;
    TrimRightShape(p);
    TrimRightSlashesShape(TrimSpace(p));
  }

  /** On a canonical set the update changes the root's origin and nothing else, in any listing order. */
  lemma RootUpdateChangesOnlyTheRoot(domainId: string, origin: Option<Url>, stored: seq<Route>, now: int,
                                     ids: nat -> string)
    requires AllReadable(stored) && CanonicalPaths(stored) && Updatable(origin, stored)
    ensures Cores(NormalRoutes(domainId, RootInputs(origin, stored), now, false, ids))
         == Sort(PathOfCore, Cores(MapSeq(WithRoot(PlainUrl(origin)), stored)))
  {
    RootUpdateStores(domainId, origin, stored, now, ids);
    CanonicalCores(PlainUrl(origin), stored);
  }

  lemma CanonicalCores(u: Url, stored: seq<Route>)
    requires (forall r :: r in stored ==> Readable(r)) && CanonicalPaths(stored)
    ensures MapSeq(Reread(u), stored) == Cores(MapSeq(WithRoot(u), stored))
  {
    forall i | 0 <= i < |stored| ensures Reread(u)(stored[i]) == CoreOf(WithRoot(u)(stored[i])) {
      assert stored[i] in stored;
      CanonicalReads(stored[i].path);
    }
  }

  ghost predicate SamePaths(a: seq<Route>, b: seq<Route>) {
    forall p :: p in Paths(a) <==> p in Paths(b)
  }

  /** The paths of the result are the stored paths as they are read. */
  lemma UpdatedPaths(domainId: string, origin: Option<Url>, stored: seq<Route>, now: int, ids: nat -> string, p: string)
    requires AllReadable(stored) && Updatable(origin, stored)
    ensures p in Paths(NormalRoutes(domainId, RootInputs(origin, stored), now, false, ids)) <==> p in ReadPaths(stored)
  {
    var routes := NormalRoutes(domainId, RootInputs(origin, stored), now, false, ids);
    var cores := MapSeq(Reread(PlainUrl(origin)), stored);
    RootUpdateStores(domainId, origin, stored, now, ids);
    SortMultiset(PathOfCore, cores);
    SamePathsOf(cores, Cores(routes), p);
    assert CorePaths(cores) == ReadPaths(stored);
    assert CorePaths(Cores(routes)) == Paths(routes);
  }

  lemma SamePathsOf(a: seq<Core>, b: seq<Core>, p: string)
    requires multiset(a) == multiset(b)
    ensures p in CorePaths(a) <==> p in CorePaths(b)
  {
    MapMultiset(PathOfCore, a, b);
    assert p in multiset(CorePaths(a)) <==> p in multiset(CorePaths(b));
  }

  lemma {:induction false} LongestUncanonical(stored: seq<Route>) returns (longest: Route)
    requires !CanonicalPaths(stored) && NoneEmpty(stored)
    ensures longest in stored && IsSpace(longest.path[|longest.path| - 1])
    ensures forall r :: r in stored && IsSpace(r.path[|r.path| - 1]) ==> |r.path| <= |longest.path|
  {
    var rest := stored[1..];
    assert stored == [stored[0]] + rest;
    if CanonicalPaths(rest) {
      longest := stored[0];
    } else {
      longest := LongestUncanonical(rest);
      if IsSpace(stored[0].path[|stored[0].path| - 1]) && |longest.path| < |stored[0].path| { longest := stored[0]; }
    }
  }

  lemma CanonicalKeepsPaths(stored: seq<Route>)
    requires (forall r :: r in stored ==> Readable(r)) && CanonicalPaths(stored)
    ensures ReadPaths(stored) == Paths(stored)
  {
    forall i | 0 <= i < |stored| ensures ReadPaths(stored)[i] == stored[i].path {
      assert stored[i] in stored;
      CanonicalReads(stored[i].path);
    }
  }

  /** The longest path that does not read as itself is nobody's reading. */
  lemma UncanonicalIsLost(stored: seq<Route>) returns (lost: Route)
    requires (forall r :: r in stored ==> Readable(r)) && NoneEmpty(stored) && !CanonicalPaths(stored)
    ensures lost in stored && lost.path !in ReadPaths(stored)
  {
    lost := LongestUncanonical(stored);
    if lost.path in ReadPaths(stored) {
      var i :| 0 <= i < |stored| && ReadPaths(stored)[i] == lost.path;
      assert stored[i] in stored;
      CanonicalReads(stored[i].path);
      CanonicalReads(lost.path);
    }
  }

  /** The promise that the other routes keep their paths holds exactly on canonical sets. */
  lemma RootUpdateKeepsPathsIff(domainId: string, origin: Option<Url>, stored: seq<Route>, now: int, ids: nat -> string)
    requires AllReadable(stored) && Updatable(origin, stored)
    ensures SamePaths(NormalRoutes(domainId, RootInputs(origin, stored), now, false, ids), stored) <==>
            CanonicalPaths(stored)
  {
    var routes := NormalRoutes(domainId, RootInputs(origin, stored), now, false, ids);
    forall p ensures p in Paths(routes) <==> p in ReadPaths(stored) {
      UpdatedPaths(domainId, origin, stored, now, ids, p);
    }
    if CanonicalPaths(stored) {
      CanonicalKeepsPaths(stored);
    } else {
      var lost := UncanonicalIsLost(stored);
      var i :| 0 <= i < |stored| && stored[i] == lost;
      assert Paths(stored)[i] == lost.path;
    }
  }

  const ORIGIN := Url("http", false, WithPort(Localhost, "3000"), "", "", "")

  function PlainRoute(path: string): Route { Route(path, "d", path, ORIGIN, false, 0, 0) }

  /** The root beside "/a ", which creation accepts from a raw "/a /": the update is taken, and "/a "
      silently becomes "/a". */
  lemma RootUpdateRenamesPath()
    ensures var stored := [PlainRoute("/a "), PlainRoute("/")];
            && NormalizePath(Utf8("/a /")) == Ok("/a ")
            && AllReadable(stored) && Updatable(Some(ORIGIN), stored) && ReadPaths(stored) == ["/a", "/"]
  {
    InnerSpaceIsNotCanonical();
    SpacedReads();
    RootReads();
    var a, root := PlainRoute("/a "), PlainRoute("/");
    assert [a, root][1] == root;
    PairReads(a, root);
    assert Distinct(ReadPaths([a, root]));
  }

  lemma PairReads(a: Route, b: Route)
    ensures ReadPaths([a, b]) == [ReadPath(a.path), ReadPath(b.path)]
  {
  }

  lemma SpacedReads()
    ensures Readable(PlainRoute("/a ")) && ReadPath("/a ") == "/a"
  {
    InnerSpaceIsNotCanonical();
    NormalizedIsWellShaped(Utf8("/a /"));
    StoredPathReads("/a ");
  }

  lemma RootReads()
    ensures Readable(PlainRoute("/")) && ReadPath("/") == "/"
  {
    assert ByteLen("/") == 1 by { assert "/"[1..] == ""; }
    assert TrimSpace("/") == "/";
  }
}
