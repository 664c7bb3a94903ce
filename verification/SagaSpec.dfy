/** Route replacement as a sequence of views of one domain: the route list whose rules are active at
    Cloudflare, the stored list, and the list registered with the proxy. A failed call has no effect. */
module SagaSpec {
  import opened RoutePath
  import opened Routes
  import opened IngressProxy

  datatype View = View(active: seq<Route>, db: seq<Route>, proxy: seq<Route>)

  /** Whether each external call would succeed: the first put, the SQLite transaction, the undoing put. */
  datatype Outcomes = Outcomes(put: bool, persist: bool, undo: bool)

  datatype SagaResult = Replaced | ProxyRefused | RemoteFailed | PersistFailed(undone: bool) | CommitRefused

  /** The client refuses an empty rule list before it calls Cloudflare. */
  predicate PutSucceeds(ok: bool, routes: seq<Route>) { ok && routes != [] }

  function Reregistered(addr: Host, hostname: string, routes: seq<Route>, proxy: seq<Route>): seq<Route> {
    if Allowed(addr, hostname, routes) then Stripped(routes) else proxy
  }

  /** The views after a failed transaction: remote restored, then the proxy; none if the undo fails. */
  function UndoViews(addr: Host, hostname: string, pushed: View, oldRoutes: seq<Route>, undoOk: bool): seq<View> {
    if !PutSucceeds(undoOk, oldRoutes) then []
    else
      var undone := pushed.(active := oldRoutes);
      [undone, undone.(proxy := Reregistered(addr, hostname, oldRoutes, undone.proxy))]
  }

  /** The views after a successful first put. */
  function StoreViews(addr: Host, hostname: string, pushed: View, oldRoutes: seq<Route>, newRoutes: seq<Route>,
                      o: Outcomes): seq<View> {
    if !o.persist then UndoViews(addr, hostname, pushed, oldRoutes, o.undo)
    else
      var stored := pushed.(db := newRoutes);
      [stored, stored.(proxy := Reregistered(addr, hostname, newRoutes, stored.proxy))]
  }

  /** The views after the proxy was prepared. */
  function PushViews(addr: Host, hostname: string, prepared: View, oldRoutes: seq<Route>, newRoutes: seq<Route>,
                     o: Outcomes): seq<View> {
    if !PutSucceeds(o.put, newRoutes) then [prepared.(proxy := Reregistered(addr, hostname, oldRoutes, prepared.proxy))]
    else
      var pushed := prepared.(active := newRoutes);
      [pushed] + StoreViews(addr, hostname, pushed, oldRoutes, newRoutes, o)
  }

  /** Every view the replacement passes through, the starting one included. */
  function SagaViews(addr: Host, hostname: string, v: View, oldRoutes: seq<Route>, newRoutes: seq<Route>,
                     o: Outcomes): seq<View> {
    if !Allowed(addr, hostname, Merged(oldRoutes, newRoutes)) then [v]
    else
      var prepared := v.(proxy := Merged(oldRoutes, newRoutes));
      [v, prepared] + PushViews(addr, hostname, prepared, oldRoutes, newRoutes, o)
  }

  /** How it ends once Cloudflare has the new rules. */
  function StoreOutcome(addr: Host, hostname: string, oldRoutes: seq<Route>, newRoutes: seq<Route>,
                        o: Outcomes): SagaResult {
    if !o.persist then PersistFailed(PutSucceeds(o.undo, oldRoutes))
    else if Allowed(addr, hostname, newRoutes) then Replaced
    else CommitRefused
  }

  function SagaOutcome(addr: Host, hostname: string, oldRoutes: seq<Route>, newRoutes: seq<Route>,
                       o: Outcomes): SagaResult {
    if !Allowed(addr, hostname, Merged(oldRoutes, newRoutes)) then ProxyRefused
    else if !PutSucceeds(o.put, newRoutes) then RemoteFailed
    else StoreOutcome(addr, hostname, oldRoutes, newRoutes, o)
  }

  /** A put for a tunnel that is gone, as after a half-failed deletion, cannot succeed. */
  function Reaching(o: Outcomes, tunnel: bool): Outcomes {
    o.(put := o.put && tunnel, undo := o.undo && tunnel)
  }

  function SagaEnd(addr: Host, hostname: string, v: View, oldRoutes: seq<Route>, newRoutes: seq<Route>,
                   o: Outcomes): View {
    var views := SagaViews(addr, hostname, v, oldRoutes, newRoutes, o);
    views[|views| - 1]
  }
}
