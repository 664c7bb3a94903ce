/** Normalisation of a whole route set: on the way in, and when it is read back from SQLite. */
module Routes {
  import opened Prelude
  import opened PathOrder
  import opened RoutePath

  datatype RouteInput = RouteInput(path: RawText, origin: Option<Url>, strip: bool)

  datatype Route = Route(id: string, domainId: string, path: string, origin: Url, strip: bool,
                         created: int, updated: int)

  /** What a route means, without its identity and its timestamps. */
  datatype Core = Core(path: string, origin: Url, strip: bool)

  function PathOf(r: Route): string { r.path }

  function PathOfCore(c: Core): string { c.path }

  function CoreOf(r: Route): Core { Core(r.path, r.origin, r.strip) }

  function Cores(routes: seq<Route>): seq<Core> { MapSeq(CoreOf, routes) }

  function Paths(routes: seq<Route>): seq<string> { MapSeq(PathOf, routes) }

  // ---- the specification ---------------------------------------------------------------------

  /** One input on its own: the checks of the loop body except the duplicate check. */
  function NormalizeOne(input: RouteInput, allowPath: bool): Result<Core, RouteError> {
    var path := NormalizePath(input.path);
    if path.Err? then Err(path.error)
    else if path.value == "/" && input.strip then Err(RootStrips)
    else
      var origin := NormalizeOrigin(input.origin, input.strip, allowPath);
      if origin.Err? then Err(origin.error) else Ok(Core(path.value, origin.value, input.strip))
  }

  const NO_URL := Url("", false, NoHost, "", "", "")

  function CoreOr(input: RouteInput, allowPath: bool): Core {
    var one := NormalizeOne(input, allowPath);
    if one.Ok? then one.value else Core("", NO_URL, false)
  }

  function CoreFn(allowPath: bool): RouteInput -> Core {
    (input: RouteInput) => CoreOr(input, allowPath)
  }

  function InputCores(inputs: seq<RouteInput>, allowPath: bool): seq<Core> {
    MapSeq(CoreFn(allowPath), inputs)
  }

  function CorePaths(cores: seq<Core>): seq<string> { MapSeq(PathOfCore, cores) }

  ghost predicate AllOk(inputs: seq<RouteInput>, allowPath: bool) {
    forall input :: input in inputs ==> NormalizeOne(input, allowPath).Ok?
  }

  /** Exactly the sets the service takes. */
  ghost predicate Accepted(inputs: seq<RouteInput>, allowPath: bool) {
    && 1 <= |inputs| <= MAX_DOMAIN_ROUTES
    && AllOk(inputs, allowPath)
    && Distinct(CorePaths(InputCores(inputs, allowPath)))
    && "/" in CorePaths(InputCores(inputs, allowPath))
  }

  function Draft(domainId: string, cores: seq<Core>, now: int, ids: nat -> string): (r: seq<Route>)
    ensures |r| == |cores|
    ensures forall i :: 0 <= i < |r| ==>
            r[i] == Route(ids(i), domainId, cores[i].path, cores[i].origin, cores[i].strip, now, now)
  {
    seq(|cores|, i requires 0 <= i < |cores| =>
      Route(ids(i), domainId, cores[i].path, cores[i].origin, cores[i].strip, now, now))
  }

  function NormalRoutes(domainId: string, inputs: seq<RouteInput>, now: int, allowPath: bool,
                        ids: nat -> string): seq<Route> {
    Sort(PathOf, Draft(domainId, InputCores(inputs, allowPath), now, ids))
  }

  // ---- the code ------------------------------------------------------------------------------

  // The loop's progress after i inputs.

  function SeenUpTo(inputs: seq<RouteInput>, allowPath: bool, i: nat): set<string>
    requires i <= |inputs|
  {
    if i == 0 then {} else SeenUpTo(inputs, allowPath, i - 1) + {CoreOr(inputs[i - 1], allowPath).path}
  }

  ghost predicate OkUpTo(inputs: seq<RouteInput>, allowPath: bool, i: nat)
    requires i <= |inputs|
  {
    i == 0 ||
    (&& OkUpTo(inputs, allowPath, i - 1)
     && NormalizeOne(inputs[i - 1], allowPath).Ok?
     && CoreOr(inputs[i - 1], allowPath).path !in SeenUpTo(inputs, allowPath, i - 1))
  }

  function DraftUpTo(domainId: string, inputs: seq<RouteInput>, now: int, allowPath: bool, ids: nat -> string,
                     i: nat): seq<Route>
    requires i <= |inputs|
  {
    if i == 0 then []
    else
      var c := CoreOr(inputs[i - 1], allowPath);
      DraftUpTo(domainId, inputs, now, allowPath, ids, i - 1)
      + [Route(ids(i - 1), domainId, c.path, c.origin, c.strip, now, now)]
  }

  lemma {:induction false} OkUpToMonotone(inputs: seq<RouteInput>, allowPath: bool, i: nat, j: nat)
    requires i <= j <= |inputs| && OkUpTo(inputs, allowPath, j)
    ensures OkUpTo(inputs, allowPath, i)
    decreases j
  {
    if i < j { OkUpToMonotone(inputs, allowPath, i, j - 1); }
  }

  lemma {:induction false} DraftUpToIsDraft(domainId: string, inputs: seq<RouteInput>, now: int, allowPath: bool,
                                            ids: nat -> string, i: nat)
    requires i <= |inputs|
    ensures DraftUpTo(domainId, inputs, now, allowPath, ids, i) == Draft(domainId, InputCores(inputs, allowPath),
            now, ids)[..i]
  {
    if i > 0 { DraftUpToIsDraft(domainId, inputs, now, allowPath, ids, i - 1); }
  }

  lemma {:induction false} SeenUpToIsPaths(inputs: seq<RouteInput>, allowPath: bool, i: nat)
    requires i <= |inputs|
    ensures forall p :: p in SeenUpTo(inputs, allowPath, i) <==> p in CorePaths(InputCores(inputs, allowPath))[..i]
  {
    if i > 0 {
      SeenUpToIsPaths(inputs, allowPath, i - 1);
      var paths := CorePaths(InputCores(inputs, allowPath));
      assert paths[..i] == paths[..i - 1] + [CoreOr(inputs[i - 1], allowPath).path];
    }
  }

  ghost predicate HasRoot(inputs: seq<RouteInput>, allowPath: bool, origin: Url) {
    Core("/", origin, false) in InputCores(inputs, allowPath)
  }

  lemma CoreAmong(inputs: seq<RouteInput>, allowPath: bool, i: nat)
    requires i < |inputs|
    ensures CoreOr(inputs[i], allowPath) in InputCores(inputs, allowPath)
  {
    assert InputCores(inputs, allowPath)[i] == CoreOr(inputs[i], allowPath);
  }

  lemma DraftComplete(domainId: string, inputs: seq<RouteInput>, now: int, allowPath: bool, ids: nat -> string)
    ensures Sort(PathOf, DraftUpTo(domainId, inputs, now, allowPath, ids, |inputs|))
         == NormalRoutes(domainId, inputs, now, allowPath, ids)
  {
    DraftUpToIsDraft(domainId, inputs, now, allowPath, ids, |inputs|);
    var draft := Draft(domainId, InputCores(inputs, allowPath), now, ids);
    assert draft[..|inputs|] == draft;
  }

  lemma {:induction false} OkUpToMeans(inputs: seq<RouteInput>, allowPath: bool, paths: seq<string>, i: nat)
    requires i <= |inputs| && paths == CorePaths(InputCores(inputs, allowPath))
    ensures OkUpTo(inputs, allowPath, i) <==> AllOk(inputs[..i], allowPath) && Distinct(paths[..i])
  {
    if i > 0 {
      var k := i - 1;
      OkUpToMeans(inputs, allowPath, paths, k);
      SeenUpToIsPaths(inputs, allowPath, k);
      OkSnoc(inputs, allowPath, paths, k);
      assert paths[k] == CoreOr(inputs[k], allowPath).path;
    } else {
      assert inputs[..0] == [] && paths[..0] == [];
    }
  }

  /** One more input keeps the two conditions exactly if it is fine itself and its path is new. */
  lemma OkSnoc(inputs: seq<RouteInput>, allowPath: bool, paths: seq<string>, i: nat)
    requires i < |inputs| == |paths|
    ensures AllOk(inputs[..i + 1], allowPath) && Distinct(paths[..i + 1]) <==>
            && AllOk(inputs[..i], allowPath) && Distinct(paths[..i])
            && NormalizeOne(inputs[i], allowPath).Ok? && paths[i] !in paths[..i]
  {
    AllOkSnoc(inputs, allowPath, i);
    assert paths[..i + 1] == paths[..i] + [paths[i]];
    DistinctSnoc(paths[..i], paths[i]);
  }

  lemma AllOkSnoc(inputs: seq<RouteInput>, allowPath: bool, i: nat)
    requires i < |inputs|
    ensures AllOk(inputs[..i + 1], allowPath) <==>
            AllOk(inputs[..i], allowPath) && NormalizeOne(inputs[i], allowPath).Ok?
  {
    assert inputs[..i + 1] == inputs[..i] + [inputs[i]];
  }

  lemma DistinctSnoc(s: seq<string>, x: string)
    ensures Distinct(s + [x]) <==> Distinct(s) && x !in s
  {
    var t := s + [x];
    assert forall i :: 0 <= i < |s| ==> t[i] == s[i];
    if Distinct(t) {
      assert t[|s|] == x;
    }
  }

  lemma AcceptedMeans(inputs: seq<RouteInput>, allowPath: bool)
    ensures Accepted(inputs, allowPath) <==>
            && 1 <= |inputs| <= MAX_DOMAIN_ROUTES
            && OkUpTo(inputs, allowPath, |inputs|)
            && "/" in SeenUpTo(inputs, allowPath, |inputs|)
  {
    var paths := CorePaths(InputCores(inputs, allowPath));
    assert paths[..|inputs|] == paths && inputs[..|inputs|] == inputs;
    OkUpToMeans(inputs, allowPath, paths, |inputs|);
    SeenUpToIsPaths(inputs, allowPath, |inputs|);
  }

  lemma RefusedAt(inputs: seq<RouteInput>, allowPath: bool, i: nat)
    requires i < |inputs| && !OkUpTo(inputs, allowPath, i + 1)
    ensures !Accepted(inputs, allowPath)
  {
    AcceptedMeans(inputs, allowPath);
    if OkUpTo(inputs, allowPath, |inputs|) { OkUpToMonotone(inputs, allowPath, i + 1, |inputs|); }
  }

  /** The checks the loop makes on one input, in the order it makes them. */
  method CheckInput(input: RouteInput, allowPath: bool, seen: set<string>) returns (r: Result<Core, RouteError>)
    ensures r.Ok? <==> NormalizeOne(input, allowPath).Ok? && CoreOr(input, allowPath).path !in seen
    ensures r.Ok? ==> r.value == CoreOr(input, allowPath) && (r.value.path == "/" ==> !r.value.strip)
    ensures r.Err? ==>
              var path := NormalizePath(input.path);
              if path.Ok? && path.value in seen then r.error == DuplicatePath
              else NormalizeOne(input, allowPath) == Err(r.error)
  {
    var path := NormalizePath(input.path);
    if path.Err? {
      return Err(path.error);
    }
    if path.value in seen {
      return Err(DuplicatePath);
    }
    if path.value == "/" && input.strip {
      return Err(RootStrips);
    }
    var origin := NormalizeOrigin(input.origin, input.strip, allowPath);
    if origin.Err? {
      return Err(origin.error);
    }
    return Ok(Core(path.value, origin.value, input.strip));
  }

  /** ids stands for the fresh UUIDs drawn, in input order. */
  method NormalizeRoutesWithLegacyPaths(domainId: string, inputs: seq<RouteInput>, now: int, allowPath: bool,
        ids: nat -> string)
    returns (r: Result<(seq<Route>, Url), RouteError>)
    ensures r.Ok? <==> Accepted(inputs, allowPath)
    ensures r.Ok? ==> r.value.0 == NormalRoutes(domainId, inputs, now, allowPath, ids)
    ensures r.Ok? ==> HasRoot(inputs, allowPath, r.value.1)
  {
    if |inputs| == 0 || |inputs| > MAX_DOMAIN_ROUTES {
      return Err(BadCount);
    }
    var routes: seq<Route> := [];
    var seen: set<string> := {};
    var defaultOrigin: Option<Url> := None;
    for i := 0 to |inputs|
      invariant OkUpTo(inputs, allowPath, i)
      invariant routes == DraftUpTo(domainId, inputs, now, allowPath, ids, i)
      invariant seen == SeenUpTo(inputs, allowPath, i)
      invariant defaultOrigin.Some? <==> "/" in seen
      invariant defaultOrigin.Some? ==> HasRoot(inputs, allowPath, defaultOrigin.value)
    {
      var core := CheckInput(inputs[i], allowPath, seen);
      if core.Err? {
        RefusedAt(inputs, allowPath, i);
        return Err(core.error);
      }
      var Core(path, origin, strip) := core.value;
      seen := seen + {path};
      if path == "/" {
        CoreAmong(inputs, allowPath, i);
        defaultOrigin := Some(origin);
      }
      routes := routes + [Route(ids(i), domainId, path, origin, strip, now, now)];
    }
    AcceptedMeans(inputs, allowPath);
    if defaultOrigin.None? {
      return Err(NoRoot);
    }
    DraftComplete(domainId, inputs, now, allowPath, ids);
    routes := Sort(PathOf, routes);
    return Ok((routes, defaultOrigin.value));
  }

  method NormalizeRoutes(domainId: string, inputs: seq<RouteInput>, now: int, ids: nat -> string)
    returns (r: Result<(seq<Route>, Url), RouteError>)
    ensures r.Ok? <==> Accepted(inputs, false)
    ensures r.Ok? ==> r.value.0 == NormalRoutes(domainId, inputs, now, false, ids)
    ensures r.Ok? ==> HasRoot(inputs, false, r.value.1)
  {
    r := NormalizeRoutesWithLegacyPaths(domainId, inputs, now, false, ids);
  }

  function InputOf(r: Route): RouteInput { RouteInput(Utf8(r.path), Some(r.origin), r.strip) }

  function InputsOf(routes: seq<Route>): seq<RouteInput> { MapSeq(InputOf, routes) }

  method RouteInputs(routes: seq<Route>) returns (inputs: seq<RouteInput>)
    ensures inputs == InputsOf(routes)
  {
    inputs := [];
    for i := 0 to |routes|
      invariant |inputs| == i
      invariant forall k :: 0 <= k < i ==> inputs[k] == InputOf(routes[k])
    {
      inputs := inputs + [RouteInput(Utf8(routes[i].path), Some(routes[i].origin), routes[i].strip)];
    }
  }

  /** The last stored route of each path. */
  function Metadata(persisted: seq<Route>): (m: map<string, Route>)
    ensures forall p :: p in m ==> m[p] in persisted && m[p].path == p
    ensures forall r :: r in persisted ==> r.path in m
  {
    if persisted == [] then map[]
    else
      var last := persisted[|persisted| - 1];
      assert persisted == persisted[..|persisted| - 1] + [last];
      Metadata(persisted[..|persisted| - 1])[last.path := last]
  }

  function Restored(metadata: map<string, Route>, r: Route): Route {
    if r.path in metadata
    then r.(id := metadata[r.path].id, created := metadata[r.path].created, updated := metadata[r.path].updated)
    else r
  }

  function RestoredFn(persisted: seq<Route>): Route -> Route {
    (r: Route) => Restored(Metadata(persisted), r)
  }

  function PersistedRoutes(domainId: string, persisted: seq<Route>, now: int, ids: nat -> string): seq<Route> {
    MapSeq(RestoredFn(persisted), NormalRoutes(domainId, InputsOf(persisted), now, true, ids))
  }

  lemma MetadataStep(persisted: seq<Route>, i: nat)
    requires i < |persisted|
    ensures Metadata(persisted[..i + 1]) == Metadata(persisted[..i])[persisted[i].path := persisted[i]]
  {
    assert persisted[..i + 1][..i] == persisted[..i];
  }

  /** Of several stored routes on one path the last one counts. */
  lemma {:induction false} MetadataIsLast(persisted: seq<Route>, i: nat)
    requires i < |persisted| && forall j :: i < j < |persisted| ==> persisted[j].path != persisted[i].path
    ensures persisted[i].path in Metadata(persisted) && Metadata(persisted)[persisted[i].path] == persisted[i]
  {
    var n := |persisted| - 1;
    if i < n {
      assert persisted[n].path != persisted[i].path;
      MetadataIsLast(persisted[..n], i);
    }
  }

  method CollectMetadata(persisted: seq<Route>) returns (metadata: map<string, Route>)
    ensures metadata == Metadata(persisted)
  {
    metadata := map[];
    for i := 0 to |persisted|
      invariant metadata == Metadata(persisted[..i])
    {
      MetadataStep(persisted, i);
      metadata := metadata[persisted[i].path := persisted[i]];
    }
    assert persisted[..|persisted|] == persisted;
  }

  method NormalizePersistedRoutes(domainId: string, persisted: seq<Route>, now: int, ids: nat -> string)
    returns (r: Result<seq<Route>, RouteError>)
    ensures r.Ok? <==> Accepted(InputsOf(persisted), true)
    ensures r.Ok? ==> r.value == PersistedRoutes(domainId, persisted, now, ids)
  {
    var inputs := RouteInputs(persisted);
    var normal := NormalizeRoutesWithLegacyPaths(domainId, inputs, now, true, ids);
    if normal.Err? {
      return Err(normal.error);
    }
    var metadata := CollectMetadata(persisted);
    var normalized := normal.value.0;
    ghost var before := normalized;
    for i := 0 to |normalized|
      invariant |normalized| == |before|
      invariant forall k :: 0 <= k < i ==> normalized[k] == Restored(metadata, before[k])
      invariant forall k :: i <= k < |normalized| ==> normalized[k] == before[k]
    {
      if normalized[i].path in metadata {
        var original := metadata[normalized[i].path];
        normalized := normalized[i := normalized[i].(id := original.id, created := original.created,
            updated := original.updated)];
      }
    }
    return Ok(normalized);
  }
}
