/** What route replacement keeps: every request finds its route at every step and under every failure,
    the three views agree again whenever they can, and exactly when a drifted remote loses cover. */
module SagaLaws {
  import opened Prelude
  import opened PathOrder
  import opened RoutePath
  import opened Routes
  import opened RouteLaws
  import opened PathRegex
  import opened Dispatch
  import opened IngressProxy
  import opened ProxyLaws
  import opened SagaSpec

  ghost predicate SameSet(a: seq<Route>, b: seq<Route>) {
    forall r :: r in a <==> r in b
  }

  /** A list Cloudflare may be given: a route set with longer paths first. */
  ghost predicate Publishable(routes: seq<Route>) {
    RouteSet(routes) && NoPrefixFirst(Paths(routes))
  }

  /** All three views show the same routes. */
  ghost predicate Agreement(v: View) {
    && SameSet(v.active, v.db)
    && (forall r :: r in v.proxy <==> r in v.db && r.strip)
  }

  // ---- the transition set ------------------------------------------------------------------------

  lemma MergedMembers(oldRoutes: seq<Route>, newRoutes: seq<Route>, r: Route)
    ensures r in Merged(oldRoutes, newRoutes) <==>
            r.strip && (r in newRoutes || (r in oldRoutes && r.path !in StrippedPaths(newRoutes)))
  {
    StrippedMembers(newRoutes);
    OldOnlyMembers(oldRoutes, StrippedPaths(newRoutes));
    if r in newRoutes && r.strip { assert r.path in StrippedPaths(newRoutes); }
  }

  lemma {:induction false} OldOnlyDistinct(oldRoutes: seq<Route>, taken: set<string>)
    requires KeysDistinct(PathOf, oldRoutes)
    ensures KeysDistinct(PathOf, OldOnly(oldRoutes, taken))
  {
    if oldRoutes != [] {
      var init, last := oldRoutes[..|oldRoutes| - 1], oldRoutes[|oldRoutes| - 1];
      OldOnlyDistinct(init, taken);
      OldOnlyMembers(init, taken);
      var s := OldOnly(init, taken);
      forall i | 0 <= i < |s| ensures PathOf(s[i]) != PathOf(last) {
        assert s[i] in init;
        var k :| 0 <= k < |init| && init[k] == s[i];
        assert PathOf(oldRoutes[k]) != PathOf(oldRoutes[|oldRoutes| - 1]);
      }
    }
  }

  lemma MergedDistinct(oldRoutes: seq<Route>, newRoutes: seq<Route>)
    requires KeysDistinct(PathOf, oldRoutes) && KeysDistinct(PathOf, newRoutes)
    ensures KeysDistinct(PathOf, Merged(oldRoutes, newRoutes))
  {
    var taken := StrippedPaths(newRoutes);
    var a, b := Stripped(newRoutes), OldOnly(oldRoutes, taken);
    StrippedDistinct(newRoutes);
    OldOnlyDistinct(oldRoutes, taken);
    StrippedMembers(newRoutes);
    OldOnlyMembers(oldRoutes, taken);
    forall i, j | 0 <= i < |a| && 0 <= j < |b| ensures PathOf(a[i]) != PathOf(b[j]) {
      assert a[i] in newRoutes && a[i].path in taken;
      assert b[j] in b;
    }
  }

  /** Where a stripped route of either set stands in the transition set: itself, or the new route of
      the same path. */
  lemma MergedCovers(oldRoutes: seq<Route>, newRoutes: seq<Route>, c: Route) returns (r: Route)
    requires c.strip && (c in oldRoutes || c in newRoutes)
    ensures r in Merged(oldRoutes, newRoutes) && r.path == c.path
    ensures c in newRoutes ==> r == c
  {
    if c in newRoutes {
      r := c;
    } else if c.path in StrippedPaths(newRoutes) {
      var x :| x in newRoutes && x.strip && x.path == c.path;
      r := x;
    } else {
      r := c;
    }
    MergedMembers(oldRoutes, newRoutes, r);
  }

  ghost predicate Covers(proxy: seq<Route>, routes: seq<Route>) {
    forall c :: c in routes && c.strip ==> exists r :: r in proxy && r.path == c.path
  }

  // ---- what a request meets ----------------------------------------------------------------------

  /** The index a registered list is served from (OwnIndex). */
  function IndexOf(proxy: seq<Route>): seq<Route> { Sort(PathOf, proxy) }

  /** The route whose rule the active rules choose. */
  function Chosen(active: seq<Route>, s: string): Option<Route> {
    if NewlineFree(s) then Longest(active, s) else RootOf(active)
  }

  /** A direct route that leads back to the proxy. */
  predicate Loops(addr: Host, r: Route) { !r.strip && SameEndpoint(r.origin.host, addr) }

  /** Request s is delivered, by a route of one of the two sets that is at least as specific as the one
      the active rules choose. */
  ghost predicate ServedBy(addr: Host, v: View, oldRoutes: seq<Route>, newRoutes: seq<Route>, s: string, r: Route) {
    && (r in oldRoutes || r in newRoutes)
    && Accepts(r.path, s)
    && Chosen(v.active, s).Some? && |Chosen(v.active, s).value.path| <= |r.path|
    && Deliver(addr, Rules(addr, v.active), IndexOf(v.proxy), s) == DeliverBy(r, s)
  }

  lemma IndexFinds(proxy: seq<Route>, s: string, c: Route, r: Route)
    requires KeysDistinct(PathOf, proxy)
    requires r in proxy && r.path == c.path && MatchesPrefix(s, c.path)
    ensures FirstMatch(IndexOf(proxy), s).Some? && FirstMatch(IndexOf(proxy), s).value in proxy
    ensures |c.path| <= |FirstMatch(IndexOf(proxy), s).value.path|
  {
    var index := IndexOf(proxy);
    SortSorted(PathOf, proxy);
    SortMultiset(PathOf, proxy);
    assert r in multiset(index);
    FirstMatchIsLongest(index, s, r);
    assert FirstMatch(index, s).value in multiset(index);
  }

  /** What the active rules do with a request: the chosen route's service gets it. */
  lemma ChosenDelivers(addr: Host, active: seq<Route>, index: seq<Route>, s: string)
    requires ValidAddr(addr) && Publishable(active)
    ensures Chosen(active, s).Some? && Chosen(active, s).value in active && Accepts(Chosen(active, s).value.path, s)
    ensures var c := Chosen(active, s).value;
            Deliver(addr, Rules(addr, active), index, s)
            == if c.strip || Loops(addr, c) then ProxyDelivers(index, s) else DeliverBy(c, s)
  {
    var root :| root in active && root.path == "/";
    assert Accepts(root.path, s);
    ProxyUrlLoops(addr);
    if NewlineFree(s) {
      FirstIsLongest(active, s);
      FirstRulePlain(addr, active, s);
    } else {
      FirstRuleNewline(addr, active, s, RootOf(active).value);
    }
  }

  /** Any publishable active list whose stripped paths the proxy covers serves every request whose chosen
      route does not lead back to the proxy. */
  lemma CoveredIsServed(addr: Host, v: View, oldRoutes: seq<Route>, newRoutes: seq<Route>, s: string) returns (r: Route)
    requires ValidAddr(addr) && Publishable(v.active)
    requires Chosen(v.active, s).Some? && !Loops(addr, Chosen(v.active, s).value)
    requires forall x :: x in v.active ==> x in oldRoutes || x in newRoutes
    requires forall x :: x in v.proxy ==> x.strip && (x in oldRoutes || x in newRoutes)
    requires KeysDistinct(PathOf, v.proxy) && Covers(v.proxy, v.active)
    ensures ServedBy(addr, v, oldRoutes, newRoutes, s, r)
  {
    ChosenDelivers(addr, v.active, IndexOf(v.proxy), s);
    var c := Chosen(v.active, s).value;
    if c.strip {
      var x :| x in v.proxy && x.path == c.path;
      IndexFinds(v.proxy, s, c, x);
      r := FirstMatch(IndexOf(v.proxy), s).value;
    } else {
      r := c;
    }
  }

  // ---- safety at every step ------------------------------------------------------------------------

  ghost predicate Start(v: View, oldRoutes: seq<Route>) {
    && Publishable(v.active) && SameSet(v.active, oldRoutes)
    && KeysDistinct(PathOf, v.proxy) && (forall r :: r in v.proxy <==> r in oldRoutes && r.strip)
  }

  /** What every view of the saga has in common when it starts from agreement. */
  ghost predicate Covered(v: View, oldRoutes: seq<Route>, newRoutes: seq<Route>) {
    && Publishable(v.active)
    && (SameSet(v.active, oldRoutes) || SameSet(v.active, newRoutes))
    && KeysDistinct(PathOf, v.proxy)
    && (forall r :: r in v.proxy ==> r.strip && (r in oldRoutes || r in newRoutes))
    && Covers(v.proxy, v.active)
  }

  lemma MergedCoversBoth(v: View, oldRoutes: seq<Route>, newRoutes: seq<Route>)
    requires RouteSet(oldRoutes) && RouteSet(newRoutes)
    requires Publishable(v.active) && (SameSet(v.active, oldRoutes) || SameSet(v.active, newRoutes))
    requires v.proxy == Merged(oldRoutes, newRoutes)
    ensures Covered(v, oldRoutes, newRoutes)
  {
    MergedDistinct(oldRoutes, newRoutes);
    forall r | r in v.proxy ensures r.strip && (r in oldRoutes || r in newRoutes) {
      MergedMembers(oldRoutes, newRoutes, r);
    }
    forall c | c in v.active && c.strip ensures exists r :: r in v.proxy && r.path == c.path {
      var r := MergedCovers(oldRoutes, newRoutes, c);
    }
  }

  lemma StrippedCovers(v: View, oldRoutes: seq<Route>, newRoutes: seq<Route>, own: seq<Route>)
    requires RouteSet(own) && (own == oldRoutes || own == newRoutes)
    requires Publishable(v.active) && SameSet(v.active, own)
    requires v.proxy == Stripped(own)
    ensures Covered(v, oldRoutes, newRoutes)
  {
    StrippedDistinct(own);
    StrippedMembers(own);
    forall c | c in v.active && c.strip ensures exists r :: r in v.proxy && r.path == c.path {
      assert c in v.proxy;
    }
  }

  lemma StartCovered(v: View, oldRoutes: seq<Route>, newRoutes: seq<Route>)
    requires Start(v, oldRoutes)
    ensures Covered(v, oldRoutes, newRoutes)
  {
    forall c | c in v.active && c.strip ensures exists r :: r in v.proxy && r.path == c.path {
      assert c in v.proxy;
    }
  }

  lemma MergedAllowed(addr: Host, hostname: string, oldRoutes: seq<Route>, newRoutes: seq<Route>)
    requires Allowed(addr, hostname, Merged(oldRoutes, newRoutes))
    ensures Allowed(addr, hostname, newRoutes)
  {
    forall r | r in newRoutes && r.strip ensures OriginAllowed(addr, r) {
      MergedMembers(oldRoutes, newRoutes, r);
    }
  }

  /** At most one of the three lists differs. */
  predicate OneChange(a: View, b: View) {
    || (a.db == b.db && a.proxy == b.proxy)
    || (a.active == b.active && a.proxy == b.proxy)
    || (a.active == b.active && a.db == b.db)
  }

  /** No effect of the replacement goes unrecorded: from one view to the next one list changes. */
  lemma ViewsChangeSingly(addr: Host, hostname: string, v: View, oldRoutes: seq<Route>, newRoutes: seq<Route>,
                          o: Outcomes, k: nat)
    requires k + 1 < |SagaViews(addr, hostname, v, oldRoutes, newRoutes, o)|
    ensures var views := SagaViews(addr, hostname, v, oldRoutes, newRoutes, o); OneChange(views[k], views[k + 1])
    ensures SagaViews(addr, hostname, v, oldRoutes, newRoutes, o)[0] == v
  {
  }

  /** The four kinds of view a replacement passes through. */
  ghost predicate ViewKind(w: View, v: View, oldRoutes: seq<Route>, newRoutes: seq<Route>) {
    || w == v
    || (w.proxy == Merged(oldRoutes, newRoutes) && w.active in {v.active, oldRoutes, newRoutes})
    || (w.proxy == Stripped(oldRoutes) && w.active in {v.active, oldRoutes})
    || (w.proxy == Stripped(newRoutes) && w.active == newRoutes)
  }

  lemma SagaViewKinds(addr: Host, hostname: string, v: View, oldRoutes: seq<Route>, newRoutes: seq<Route>, o: Outcomes)
    requires Allowed(addr, hostname, oldRoutes)
    ensures forall w :: w in SagaViews(addr, hostname, v, oldRoutes, newRoutes, o) ==>
            ViewKind(w, v, oldRoutes, newRoutes)
  {
    if Allowed(addr, hostname, Merged(oldRoutes, newRoutes)) { MergedAllowed(addr, hostname, oldRoutes, newRoutes); }
  }

  /** The saga's views, one by one. */
  lemma SagaCovered(addr: Host, hostname: string, v: View, oldRoutes: seq<Route>, newRoutes: seq<Route>, o: Outcomes,
                    w: View)
    requires Publishable(oldRoutes) && Publishable(newRoutes) && Allowed(addr, hostname, oldRoutes)
    requires Start(v, oldRoutes)
    requires w in SagaViews(addr, hostname, v, oldRoutes, newRoutes, o)
    ensures Covered(w, oldRoutes, newRoutes)
  {
    SagaViewKinds(addr, hostname, v, oldRoutes, newRoutes, o);
    KindCovered(v, oldRoutes, newRoutes, w);
  }

  lemma KindCovered(v: View, oldRoutes: seq<Route>, newRoutes: seq<Route>, w: View)
    requires Publishable(oldRoutes) && Publishable(newRoutes) && Start(v, oldRoutes)
            && ViewKind(w, v, oldRoutes, newRoutes)
    ensures Covered(w, oldRoutes, newRoutes)
  {
    if w == v {
      StartCovered(v, oldRoutes, newRoutes);
    } else if w.proxy == Merged(oldRoutes, newRoutes) && w.active in {v.active, oldRoutes, newRoutes} {
      MergedCoversBoth(w, oldRoutes, newRoutes);
    } else if w.proxy == Stripped(oldRoutes) && w.active in {v.active, oldRoutes} {
      StrippedCovers(w, oldRoutes, newRoutes, oldRoutes);
    } else {
      StrippedCovers(w, oldRoutes, newRoutes, newRoutes);
    }
  }

  /** What is stored and what is registered, view by view. */
  ghost predicate StoredKind(w: View, v: View, oldRoutes: seq<Route>, newRoutes: seq<Route>) {
    || (w.proxy == v.proxy && w.db == v.db)
    || (w.proxy == Merged(oldRoutes, newRoutes) && w.db in {v.db, newRoutes})
    || (w.proxy == Stripped(oldRoutes) && w.db == v.db)
    || (w.proxy == Stripped(newRoutes) && w.db == newRoutes)
  }

  lemma StoredKinds(addr: Host, hostname: string, v: View, oldRoutes: seq<Route>, newRoutes: seq<Route>, o: Outcomes)
    requires Allowed(addr, hostname, oldRoutes)
    ensures forall w :: w in SagaViews(addr, hostname, v, oldRoutes, newRoutes, o) ==>
            StoredKind(w, v, oldRoutes, newRoutes)
  {
    if Allowed(addr, hostname, Merged(oldRoutes, newRoutes)) { MergedAllowed(addr, hostname, oldRoutes, newRoutes); }
  }

  /** At no step does the proxy lack a stripped path that is stored: it gives up the old routes only after the
      transaction. */
  lemma SagaCoversStored(addr: Host, hostname: string, v: View, oldRoutes: seq<Route>, newRoutes: seq<Route>,
                         o: Outcomes, w: View)
    requires Allowed(addr, hostname, oldRoutes) && Start(v, oldRoutes) && SameSet(v.db, oldRoutes)
    requires w in SagaViews(addr, hostname, v, oldRoutes, newRoutes, o)
    ensures Covers(w.proxy, w.db)
  {
    StoredKinds(addr, hostname, v, oldRoutes, newRoutes, o);
    StoredKindCovers(v, oldRoutes, newRoutes, w);
  }

  lemma StoredKindCovers(v: View, oldRoutes: seq<Route>, newRoutes: seq<Route>, w: View)
    requires Start(v, oldRoutes) && SameSet(v.db, oldRoutes) && StoredKind(w, v, oldRoutes, newRoutes)
    ensures Covers(w.proxy, w.db)
  {
    StrippedMembers(oldRoutes);
    StrippedMembers(newRoutes);
    forall c | c in w.db && c.strip ensures exists r :: r in w.proxy && r.path == c.path {
      if w.proxy == Merged(oldRoutes, newRoutes) {
        var r := MergedCovers(oldRoutes, newRoutes, c);
      } else {
        assert c in w.proxy;
      }
    }
  }

  /** Safety of the whole replacement: at every step, for every pattern of failures and every request,
      no matter which remote configuration is active, the request is delivered by a route of the old or
      the new set, never by a less specific one than the active rules chose, and never refused. The one
      exception is a direct route that leads back to the proxy, whose requests the proxy answers. */
  lemma SagaServesEveryRequest(addr: Host, hostname: string, v: View, oldRoutes: seq<Route>, newRoutes: seq<Route>,
                               o: Outcomes,
                               w: View, s: string) returns (r: Route)
    requires ValidAddr(addr)
    requires Publishable(oldRoutes) && Publishable(newRoutes) && Allowed(addr, hostname, oldRoutes)
    requires Start(v, oldRoutes)
    requires w in SagaViews(addr, hostname, v, oldRoutes, newRoutes, o)
    ensures Chosen(w.active, s).Some?
    ensures if Loops(addr, Chosen(w.active, s).value)
            then Deliver(addr, Rules(addr, w.active), IndexOf(w.proxy), s) == ProxyDelivers(IndexOf(w.proxy), s)
            else ServedBy(addr, w, oldRoutes, newRoutes, s, r)
                 && Deliver(addr, Rules(addr, w.active), IndexOf(w.proxy), s) != NotFound
  {
    SagaCovered(addr, hostname, v, oldRoutes, newRoutes, o, w);
    r := ViewServes(addr, w, oldRoutes, newRoutes, s);
  }

  /** What any covered view does with a request. */
  lemma ViewServes(addr: Host, w: View, oldRoutes: seq<Route>, newRoutes: seq<Route>, s: string) returns (r: Route)
    requires ValidAddr(addr) && Covered(w, oldRoutes, newRoutes)
    ensures Chosen(w.active, s).Some?
    ensures if Loops(addr, Chosen(w.active, s).value)
            then Deliver(addr, Rules(addr, w.active), IndexOf(w.proxy), s) == ProxyDelivers(IndexOf(w.proxy), s)
            else ServedBy(addr, w, oldRoutes, newRoutes, s, r)
                 && Deliver(addr, Rules(addr, w.active), IndexOf(w.proxy), s) != NotFound
  {
    ChosenDelivers(addr, w.active, IndexOf(w.proxy), s);
    if Loops(addr, Chosen(w.active, s).value) {
      r := Chosen(w.active, s).value;
    } else {
      r := CoveredIsServed(addr, w, oldRoutes, newRoutes, s);
    }
  }

  /** While the transition set is in place, a path sent to the proxy goes to the longest stripped route
      of both sets, the new one where both have the path. */
  lemma TransitionPrefersNew(oldRoutes: seq<Route>, newRoutes: seq<Route>, s: string)
    requires KeysDistinct(PathOf, oldRoutes) && KeysDistinct(PathOf, newRoutes)
    ensures var found := FirstMatch(IndexOf(Merged(oldRoutes, newRoutes)), s);
            && (forall c: Route :: c.strip && (c in oldRoutes || c in newRoutes) && MatchesPrefix(s, c.path) ==>
                 found.Some? && |c.path| <= |found.value.path|)
            && (found.Some? ==> found.value.strip && (found.value in oldRoutes || found.value in newRoutes))
            && (found.Some? && found.value.path in StrippedPaths(newRoutes) ==> found.value in newRoutes)
  {
    var merged := Merged(oldRoutes, newRoutes);
    var found := FirstMatch(IndexOf(merged), s);
    MergedDistinct(oldRoutes, newRoutes);
    forall c: Route | c.strip && (c in oldRoutes || c in newRoutes) && MatchesPrefix(s, c.path)
      ensures found.Some? && |c.path| <= |found.value.path|
    {
      var r := MergedCovers(oldRoutes, newRoutes, c);
      IndexFinds(merged, s, c, r);
    }
    if found.Some? {
      SortMultiset(PathOf, merged);
      assert found.value in multiset(IndexOf(merged));
      MergedMembers(oldRoutes, newRoutes, found.value);
    }
  }

  // ---- where it ends -------------------------------------------------------------------------------

  /** A commit cannot be refused once the same routes were prepared. */
  lemma CommitIsNeverRefused(addr: Host, hostname: string, oldRoutes: seq<Route>, newRoutes: seq<Route>, o: Outcomes)
    ensures SagaOutcome(addr, hostname, oldRoutes, newRoutes, o) != CommitRefused
  {
    if Allowed(addr, hostname, Merged(oldRoutes, newRoutes)) { MergedAllowed(addr, hostname, oldRoutes, newRoutes); }
  }

  /** From any starting view, drifted or not, a successful replacement brings all three views to the new
      set; and it succeeds exactly when the proxy takes the merged set and both calls go through. */
  lemma SuccessConverges(addr: Host, hostname: string, v: View, oldRoutes: seq<Route>, newRoutes: seq<Route>,
                         o: Outcomes)
    ensures SagaOutcome(addr, hostname, oldRoutes, newRoutes, o) == Replaced <==>
            Allowed(addr, hostname, Merged(oldRoutes, newRoutes)) && o.put && newRoutes != [] && o.persist
    ensures SagaOutcome(addr, hostname, oldRoutes, newRoutes, o) == Replaced ==>
            Agreement(SagaEnd(addr, hostname, v, oldRoutes, newRoutes, o)) && SagaEnd(addr, hostname, v, oldRoutes,
                newRoutes, o).db == newRoutes
  {
    CommitIsNeverRefused(addr, hostname, oldRoutes, newRoutes, o);
    StrippedMembers(newRoutes);
  }

  /** From agreement, the only way to end in disagreement is a failed store of other routes followed by
      a failed undo; the remote then shows the new set, the store the old one, and the proxy serves both. */
  lemma FailureKeepsAgreement(addr: Host, hostname: string, v: View, oldRoutes: seq<Route>, newRoutes: seq<Route>,
                              o: Outcomes)
    requires Allowed(addr, hostname, oldRoutes) && oldRoutes != []
    requires Agreement(v) && SameSet(v.db, oldRoutes)
    ensures var end := SagaEnd(addr, hostname, v, oldRoutes, newRoutes, o);
            var outcome := SagaOutcome(addr, hostname, oldRoutes, newRoutes, o);
            && (Agreement(end) <==> outcome != PersistFailed(false) || SameSet(oldRoutes, newRoutes))
            && (outcome != Replaced ==> end.db == v.db)
            && (outcome == PersistFailed(false) ==> end == View(newRoutes, v.db, Merged(oldRoutes, newRoutes)))
  {
    CommitIsNeverRefused(addr, hostname, oldRoutes, newRoutes, o);
    StrippedMembers(newRoutes);
    StrippedMembers(oldRoutes);
    var end := SagaEnd(addr, hostname, v, oldRoutes, newRoutes, o);
    if SagaOutcome(addr, hostname, oldRoutes, newRoutes, o) == PersistFailed(false) {
      if SameSet(oldRoutes, newRoutes) {
        MergedOfSameSet(oldRoutes, newRoutes);
      } else {
        var r :| (r in oldRoutes) != (r in newRoutes);
        assert (r in end.active) != (r in end.db);
      }
    }
  }

  lemma MergedOfSameSet(oldRoutes: seq<Route>, newRoutes: seq<Route>)
    requires SameSet(oldRoutes, newRoutes)
    ensures forall r :: r in Merged(oldRoutes, newRoutes) <==> r in oldRoutes && r.strip
  {
    forall r ensures r in Merged(oldRoutes, newRoutes) <==> r in oldRoutes && r.strip {
      MergedMembers(oldRoutes, newRoutes, r);
    }
  }

  // ---- a second replacement from a drifted remote ---------------------------------------------------

  lemma CoversByPaths(proxy: seq<Route>, routes: seq<Route>)
    ensures Covers(proxy, routes) <==> StrippedPaths(routes) <= set r | r in proxy :: r.path
  {
    var paths := set r | r in proxy :: r.path;
    if Covers(proxy, routes) {
      forall p | p in StrippedPaths(routes) ensures p in paths {
        var c :| c in routes && c.strip && c.path == p;
        var r :| r in proxy && r.path == c.path;
      }
    }
    if StrippedPaths(routes) <= paths {
      forall c | c in routes && c.strip ensures exists r :: r in proxy && r.path == c.path {
        assert c.path in StrippedPaths(routes);
      }
    }
  }

  lemma MergedPaths(oldRoutes: seq<Route>, newRoutes: seq<Route>)
    ensures (set r | r in Merged(oldRoutes, newRoutes) :: r.path) == StrippedPaths(oldRoutes) + StrippedPaths(newRoutes)
  {
    var paths := set r | r in Merged(oldRoutes, newRoutes) :: r.path;
    forall p | p in paths ensures p in StrippedPaths(oldRoutes) + StrippedPaths(newRoutes) {
      var r :| r in Merged(oldRoutes, newRoutes) && r.path == p;
      MergedMembers(oldRoutes, newRoutes, r);
    }
    forall p | p in StrippedPaths(oldRoutes) + StrippedPaths(newRoutes) ensures p in paths {
      var c: Route :| c.strip && (c in oldRoutes || c in newRoutes) && c.path == p;
      var r := MergedCovers(oldRoutes, newRoutes, c);
    }
  }

  lemma StrippedListPaths(routes: seq<Route>)
    ensures (set r | r in Stripped(routes) :: r.path) == StrippedPaths(routes)
  {
    StrippedMembers(routes);
  }

  ghost predicate AllCovered(views: seq<View>) {
    forall i :: 0 <= i < |views| ==> Covers(views[i].proxy, views[i].active)
  }

  /** The old set is read from SQLite, so a replacement begun while the remote still shows the routes of
      an earlier, half-undone one can take their cover away. It does not, exactly when the drifted
      routes' stripped paths all occur in the stored set, or, if the put goes through, in the stored and
      the new set together. */
  lemma DriftedCoverIff(addr: Host, hostname: string, v: View, oldRoutes: seq<Route>, newRoutes: seq<Route>,
                        o: Outcomes)
    requires Allowed(addr, hostname, oldRoutes) && Allowed(addr, hostname, Merged(oldRoutes, newRoutes)) &&
            newRoutes != []
    requires Covers(v.proxy, v.active)
    ensures AllCovered(SagaViews(addr, hostname, v, oldRoutes, newRoutes, o)) <==>
            StrippedPaths(v.active) <= StrippedPaths(oldRoutes) + (if o.put then StrippedPaths(newRoutes) else {})
  {
    MergedAllowed(addr, hostname, oldRoutes, newRoutes);
    var merged := Merged(oldRoutes, newRoutes);
    MergedPaths(oldRoutes, newRoutes);
    CoversByPaths(merged, v.active);
    CoversByPaths(merged, oldRoutes);
    CoversByPaths(merged, newRoutes);
    StrippedListPaths(oldRoutes);
    StrippedListPaths(newRoutes);
    CoversByPaths(Stripped(oldRoutes), v.active);
    CoversByPaths(Stripped(oldRoutes), oldRoutes);
    CoversByPaths(Stripped(newRoutes), newRoutes);
    DriftedViews(addr, hostname, v, oldRoutes, newRoutes, o);
  }

  lemma DriftedViews(addr: Host, hostname: string, v: View, oldRoutes: seq<Route>, newRoutes: seq<Route>, o: Outcomes)
    requires Allowed(addr, hostname, oldRoutes) && Allowed(addr, hostname, newRoutes)
            && Allowed(addr, hostname, Merged(oldRoutes, newRoutes)) && newRoutes != []
    requires Covers(v.proxy, v.active)
    requires Covers(Merged(oldRoutes, newRoutes), oldRoutes) && Covers(Merged(oldRoutes, newRoutes), newRoutes)
    requires Covers(Stripped(oldRoutes), oldRoutes) && Covers(Stripped(newRoutes), newRoutes)
    ensures AllCovered(SagaViews(addr, hostname, v, oldRoutes, newRoutes, o)) <==>
            Covers(Merged(oldRoutes, newRoutes), v.active) && (o.put || Covers(Stripped(oldRoutes), v.active))
  {
    var views := SagaViews(addr, hostname, v, oldRoutes, newRoutes, o);
    assert views[1] == v.(proxy := Merged(oldRoutes, newRoutes));
    if !o.put { assert views[2] == v.(proxy := Stripped(oldRoutes)); }
  }

  /** Losing cover is losing requests: the path of an uncovered route, requested as it stands, is chosen
      by the active rules, sent to the proxy, and not delivered as that route says. */
  lemma UncoveredIsLost(addr: Host, v: View, c: Route)
    requires ValidAddr(addr) && Publishable(v.active) && KeysDistinct(PathOf, v.proxy)
    requires c in v.active && c.strip && c.path != "" && !(exists r :: r in v.proxy && r.path == c.path)
    ensures Longest(v.active, c.path) == Some(c)
    ensures Deliver(addr, Rules(addr, v.active), IndexOf(v.proxy), c.path) != DeliverBy(c, c.path)
  {
    var s := c.path;
    var best := Longest(v.active, s).value;
    assert best.path != "/" ==> best.path <= s;
    Comparable(best.path, c.path, s);
    assert |c.path| <= |best.path|;
    SamePathSameRoute(v.active, best, c);
    assert NewlineFree(s) by { assert IsControl('\n'); }
    FirstIsLongest(v.active, s);
    FirstRulePlain(addr, v.active, s);
    ProxyUrlLoops(addr);
    var found := FirstMatch(IndexOf(v.proxy), s);
    if found.Some? {
      SortMultiset(PathOf, v.proxy);
      assert found.value in multiset(IndexOf(v.proxy));
    }
  }

  // ---- runs of replacements ------------------------------------------------------------------------

  /** The three views agree, and the remote and the proxy hold lists they can work with. */
  ghost predicate InStep(v: View) {
    Agreement(v) && Publishable(v.active) && KeysDistinct(PathOf, v.proxy)
  }

  /** What creation leaves behind is in step. */
  lemma CreatedInStep(routes: seq<Route>)
    requires ValidRoutes(routes)
    ensures InStep(View(routes, routes, Stripped(routes)))
  {
    ValidRoutesDispatch(routes);
    StrippedDistinct(routes);
    StrippedMembers(routes);
  }

  datatype Attempt = Attempt(oldRoutes: seq<Route>, newRoutes: seq<Route>, outcomes: Outcomes)

  /** Attempts as the keyed lock lets them happen: one after the other, each reading the stored set in
      SQLite's order first, each with a normalised new set. */
  ghost predicate WellFormed(v: View, a: Attempt) {
    ListedAs(a.oldRoutes, v.db) && ValidRoutes(a.newRoutes)
  }

  function Next(addr: Host, hostname: string, v: View, a: Attempt): View {
    SagaEnd(addr, hostname, v, a.oldRoutes, a.newRoutes, a.outcomes)
  }

  function OutcomeOf(addr: Host, hostname: string, a: Attempt): SagaResult {
    SagaOutcome(addr, hostname, a.oldRoutes, a.newRoutes, a.outcomes)
  }

  ghost predicate LegalRun(addr: Host, hostname: string, v: View, run: seq<Attempt>)
    decreases |run|
  {
    run == [] || (WellFormed(v, run[0]) && LegalRun(addr, hostname, Next(addr, hostname, v, run[0]), run[1..]))
  }

  ghost function RunEnd(addr: Host, hostname: string, v: View, run: seq<Attempt>): View
    decreases |run|
  {
    if run == [] then v else RunEnd(addr, hostname, Next(addr, hostname, v, run[0]), run[1..])
  }

  ghost predicate StoredOk(addr: Host, hostname: string, v: View) {
    RouteSet(v.db) && Allowed(addr, hostname, v.db)
  }

  /** The stored set as it is listed may be pushed and registered. */
  lemma ListedIsPublishable(addr: Host, hostname: string, v: View, a: Attempt)
    requires StoredOk(addr, hostname, v) && WellFormed(v, a)
    ensures Publishable(a.oldRoutes) && Publishable(a.newRoutes)
    ensures SameSet(a.oldRoutes, v.db) && Allowed(addr, hostname, a.oldRoutes)
  {
    ListedIsRouteSet(a.oldRoutes, v.db);
    ValidRoutesDispatch(a.newRoutes);
  }

  /** The safety theorem for one attempt of the service, on a domain whose views are in step. */
  lemma AttemptServesEveryRequest(addr: Host, hostname: string, v: View, a: Attempt, w: View, s: string)
    returns (r: Route)
    requires ValidAddr(addr) && StoredOk(addr, hostname, v) && InStep(v) && WellFormed(v, a)
    requires w in SagaViews(addr, hostname, v, a.oldRoutes, a.newRoutes, a.outcomes)
    ensures Chosen(w.active, s).Some?
    ensures if Loops(addr, Chosen(w.active, s).value)
            then Deliver(addr, Rules(addr, w.active), IndexOf(w.proxy), s) == ProxyDelivers(IndexOf(w.proxy), s)
            else ServedBy(addr, w, a.oldRoutes, a.newRoutes, s, r)
                 && Deliver(addr, Rules(addr, w.active), IndexOf(w.proxy), s) != NotFound
  {
    ListedIsPublishable(addr, hostname, v, a);
    r := SagaServesEveryRequest(addr, hostname, v, a.oldRoutes, a.newRoutes, a.outcomes, w, s);
  }

  lemma StepKeepsStoredOk(addr: Host, hostname: string, v: View, a: Attempt)
    requires StoredOk(addr, hostname, v) && WellFormed(v, a)
    ensures StoredOk(addr, hostname, Next(addr, hostname, v, a)) && Allowed(addr, hostname, a.oldRoutes)
    ensures Next(addr, hostname, v, a).db == if OutcomeOf(addr, hostname, a) == Replaced then a.newRoutes else v.db
  {
    ListedIsPublishable(addr, hostname, v, a);
    CommitIsNeverRefused(addr, hostname, a.oldRoutes, a.newRoutes, a.outcomes);
    if Allowed(addr, hostname, Merged(a.oldRoutes, a.newRoutes)) {
      MergedAllowed(addr, hostname, a.oldRoutes, a.newRoutes);
    }
  }

  /** Over any run, whatever fails, the stored set stays one the proxy takes: the rollbacks whose errors
      are dropped never fail. */
  lemma {:induction false} RunKeepsStoredOk(addr: Host, hostname: string, v: View, run: seq<Attempt>)
    requires StoredOk(addr, hostname, v) && LegalRun(addr, hostname, v, run)
    ensures StoredOk(addr, hostname, RunEnd(addr, hostname, v, run))
    ensures EveryOldSetAllowed(addr, hostname, run)
    decreases |run|
  {
    if run != [] {
      StepKeepsStoredOk(addr, hostname, v, run[0]);
      RunKeepsStoredOk(addr, hostname, Next(addr, hostname, v, run[0]), run[1..]);
    }
  }

  ghost predicate EveryOldSetAllowed(addr: Host, hostname: string, run: seq<Attempt>)
    decreases |run|
  {
    run == [] || (Allowed(addr, hostname, run[0].oldRoutes) && EveryOldSetAllowed(addr, hostname, run[1..]))
  }

  ghost predicate EveryUndoWorked(addr: Host, hostname: string, run: seq<Attempt>)
    decreases |run|
  {
    run == [] ||
    (OutcomeOf(addr, hostname, run[0]) != PersistFailed(false) && EveryUndoWorked(addr, hostname, run[1..]))
  }

  /** The routes of the last attempt that succeeded. */
  function LastReplaced(addr: Host, hostname: string, routes: seq<Route>, run: seq<Attempt>): seq<Route>
    decreases |run|
  {
    if run == [] then routes
    else LastReplaced(addr, hostname, if OutcomeOf(addr, hostname, run[0]) == Replaced then run[0].newRoutes
        else routes, run[1..])
  }

  /** A run in which no undo ever fails stays in step, and its last success decides the routes. */
  lemma {:induction false} RunAgrees(addr: Host, hostname: string, v: View, run: seq<Attempt>)
    requires StoredOk(addr, hostname, v) && LegalRun(addr, hostname, v, run) && InStep(v)
    requires EveryUndoWorked(addr, hostname, run)
    ensures InStep(RunEnd(addr, hostname, v, run))
    ensures RunEnd(addr, hostname, v, run).db == LastReplaced(addr, hostname, v.db, run)
    decreases |run|
  {
    if run != [] {
      StepKeepsStoredOk(addr, hostname, v, run[0]);
      StepStaysInStep(addr, hostname, v, run[0]);
      RunAgrees(addr, hostname, Next(addr, hostname, v, run[0]), run[1..]);
    }
  }

  lemma StepStaysInStep(addr: Host, hostname: string, v: View, a: Attempt)
    requires StoredOk(addr, hostname, v) && WellFormed(v, a) && InStep(v)
    requires OutcomeOf(addr, hostname, a) != PersistFailed(false)
    ensures InStep(Next(addr, hostname, v, a))
  {
    ListedIsPublishable(addr, hostname, v, a);
    CommitIsNeverRefused(addr, hostname, a.oldRoutes, a.newRoutes, a.outcomes);
    StrippedMembers(a.newRoutes);
    StrippedMembers(a.oldRoutes);
    StrippedDistinct(a.newRoutes);
    StrippedDistinct(a.oldRoutes);
  }
}
