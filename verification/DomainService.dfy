/** The domain service's mutations: replacing routes, creating and deleting domains, and hydrating the
    proxy at start-up. External calls succeed or fail as the caller's Outcomes say; a failed call has no
    effect. Every method runs under its domain's keyed lock (module KeyedLock). */
module DomainService {
  import opened Prelude
  import opened PathOrder
  import opened RoutePath
  import opened Routes
  import opened RouteLaws
  import opened ReadBack
  import opened Dispatch
  import opened IngressProxy
  import opened ProxyLaws
  import opened SagaSpec
  import opened ServiceState
  import PortAlloc

  /** Why a mutation ended as it did. */
  datatype MutationResult = InvalidRoutes | ReadFailed | NoDomain | Ran(saga: SagaResult)

  /** Whether each step of CreateDomain would succeed, in its order, and then its compensations. */
  datatype CreateOutcomes = CreateOutcomes(
    zone: bool, tunnel: bool, put: bool, record: bool, encrypt: bool, listPorts: bool, persist: bool,
    spawn: bool, markError: bool, deleteTunnel: bool, deleteRecord: bool)

  /** A compensation, as pushed on revertFuncs. */
  datatype Undo = DeleteTunnel(tunnelId: string) | RemoveProxy(id: string) | DeleteRecord(recordId: string)

  /** Names drawn for a new domain: its UUID and what Cloudflare returns. */
  datatype Names = Names(id: string, tunnelId: string, recordId: string)

  datatype DeleteOutcomes = DeleteOutcomes(read: bool, running: bool, stop: bool, deleteRecord: bool,
      deleteTunnel: bool, persist: bool)

  datatype DeleteResult = Unread | Missing | StopFailed | StoreFailed | Deleted

  /** What CreateDomain returns for a stored row: the row, marked if the process did not start. */
  function Reported(stored: Option<Row>, o: CreateOutcomes): Option<Row> {
    if stored.None? then None else Some(if o.spawn then stored.value else Failed(stored.value))
  }

  function RowsAfter(rows: Rows, id: string, stored: Option<Row>, o: CreateOutcomes): Rows {
    match stored
    case None => rows
    case Some(row) =>
      var created := rows[id := row];
      if o.spawn || !o.markError then created else created[id := Failed(row)]
  }

  // ---- start-up ---------------------------------------------------------------------------------

  /** How Reconcile ends: the rows or their routes could not be read, some row could not be loaded,
      the bulk status write failed, or all is well. */
  datatype StartResult = ListFailed | RowRefused(at: nat) | BulkFailed | Started

  /** What ListRoutesByDomainIDs returns for a domain; a Go map gives nil for an absent key. */
  function Listed(lists: map<string, seq<Route>>, id: string): seq<Route> {
    if id in lists then lists[id] else []
  }

  ghost predicate Loadable(addr: Host, hostname: string, id: string, listed: seq<Route>, now: int, ids: nat -> string) {
    && Accepted(InputsOf(listed), true)
    && Allowed(addr, hostname, PersistedRoutes(id, listed, now, ids))
  }

  ghost predicate Lists(all: seq<string>, rows: Rows) {
    forall id :: id in all <==> id in rows
  }

  ghost predicate AllLoadable(addr: Host, rows: Rows, lists: map<string, seq<Route>>, all: seq<string>,
                              now: int, ids: string -> nat -> string)
  {
    forall id :: id in all ==> LoadableRow(addr, rows, lists, id, now, ids)
  }

  ghost predicate LoadableRow(addr: Host, rows: Rows, lists: map<string, seq<Route>>, id: string,
                              now: int, ids: string -> nat -> string)
  {
    id in rows && Loadable(addr, rows[id].hostname, id, Listed(lists, id), now, ids(id))
  }

  /** The rows before position n can be loaded, the one there cannot. */
  ghost predicate FirstRefused(addr: Host, rows: Rows, lists: map<string, seq<Route>>, all: seq<string>,
                               n: nat, now: int, ids: string -> nat -> string)
  {
    && n < |all| && AllLoadable(addr, rows, lists, all[..n], now, ids)
    && !AllLoadable(addr, rows, lists, all[..n + 1], now, ids)
  }

  function LoadedSnapshot(hostname: string, id: string, listed: seq<Route>, now: int,
                          ids: nat -> string): DomainSnapshot {
    DomainSnapshot(hostname, Stripped(PersistedRoutes(id, listed, now, ids)))
  }

  /** The proxy's domains after the rows in all have been committed in turn. */
  function Hydrated(domains: Domains, rows: Rows, lists: map<string, seq<Route>>, all: seq<string>,
                    now: int, ids: string -> nat -> string): Domains
  {
    if all == [] then domains
    else
      var id := all[|all| - 1];
      var before := Hydrated(domains, rows, lists, all[..|all| - 1], now, ids);
      if id in rows then before[id := LoadedSnapshot(rows[id].hostname, id, Listed(lists, id), now, ids(id))]
      else before
  }

  lemma HydratedSnoc(domains: Domains, rows: Rows, lists: map<string, seq<Route>>, all: seq<string>,
                     n: nat, now: int, ids: string -> nat -> string)
    requires n < |all| && all[n] in rows
    ensures Hydrated(domains, rows, lists, all[..n + 1], now, ids)
         == Hydrated(domains, rows, lists, all[..n], now, ids)
              [all[n] := LoadedSnapshot(rows[all[n]].hostname, all[n], Listed(lists, all[n]), now, ids(all[n]))]
  {
    assert all[..n + 1][..n] == all[..n];
  }

  lemma LoadableSnoc(addr: Host, rows: Rows, lists: map<string, seq<Route>>, all: seq<string>,
                     n: nat, now: int, ids: string -> nat -> string)
    requires n < |all|
    ensures AllLoadable(addr, rows, lists, all[..n + 1], now, ids) <==>
            AllLoadable(addr, rows, lists, all[..n], now, ids) && LoadableRow(addr, rows, lists, all[n], now, ids)
    ensures AllLoadable(addr, rows, lists, all, now, ids) ==> AllLoadable(addr, rows, lists, all[..n + 1], now, ids)
  {
    assert all[..n + 1] == all[..n] + [all[n]];
  }

  /** The active rows whose token does not decrypt or whose process does not start. */
  function Unstarted(rows: Rows, starts: string -> bool): set<string> {
    set id | id in rows && rows[id].status == Active && !starts(id)
  }

  function Marked(rows: Rows, failed: set<string>): Rows {
    map id | id in rows :: if id in failed then Failed(rows[id]) else rows[id]
  }

  /** The rows whose routes the proxy got before Reconcile returned. */
  function Loaded(all: seq<string>, r: StartResult): seq<string> {
    if r.ListFailed? then [] else if r.RowRefused? && r.at <= |all| then all[..r.at] else all
  }

  /** A prefix that could be loaded leaves the proxy sound. */
  lemma {:induction false} HydratedSound(addr: Host, domains: Domains, rows: Rows, lists: map<string, seq<Route>>,
                                         all: seq<string>,
                                         now: int, ids: string -> nat -> string)
    requires ProxySound(rows, domains) && AllLoadable(addr, rows, lists, all, now, ids)
    ensures ProxySound(rows, Hydrated(domains, rows, lists, all, now, ids))
  {
    if all != [] {
      var init, last := all[..|all| - 1], all[|all| - 1];
      assert all == init + [last];
      HydratedSound(addr, domains, rows, lists, init, now, ids);
      assert LoadableRow(addr, rows, lists, last, now, ids);
      LoadedDistinct(last, Listed(lists, last), now, ids(last));
      NewEntryKeepsProxy(rows, Hydrated(domains, rows, lists, init, now, ids), last,
                         PersistedRoutes(last, Listed(lists, last), now, ids(last)));
    }
  }

  lemma LoadedDistinct(id: string, listed: seq<Route>, now: int, ids: nat -> string)
    requires Accepted(InputsOf(listed), true)
    ensures KeysDistinct(PathOf, PersistedRoutes(id, listed, now, ids))
  {
    NormalRoutesAreValid(id, InputsOf(listed), now, true, ids);
    RestoringKeepsPaths(listed, NormalRoutes(id, InputsOf(listed), now, true, ids));
  }

  lemma RestoringKeepsPaths(listed: seq<Route>, normal: seq<Route>)
    requires KeysDistinct(PathOf, normal)
    ensures KeysDistinct(PathOf, MapSeq(RestoredFn(listed), normal))
  {
    var loaded := MapSeq(RestoredFn(listed), normal);
    forall i, j | 0 <= i < j < |loaded| ensures PathOf(loaded[i]) != PathOf(loaded[j]) {
      assert PathOf(normal[i]) != PathOf(normal[j]);
    }
  }

  lemma FinishedKeepsSound(addr: Host, start: int, end: int, rows: Rows, notified: nat, starts: string -> bool,
                           bulkOk: bool, domains: Domains)
    requires StateSound(addr, start, end, rows, domains)
    ensures StateSound(addr, start, end, Finished(rows, notified, starts, bulkOk).1, domains)
  {
    var marked := Marked(rows, Unstarted(rows, starts));
    MarkedOnlyStatus(rows, Unstarted(rows, starts));
    StatusKeepsRows(addr, start, end, rows, marked);
    SameHostsKeepProxy(rows, marked, domains);
  }

  lemma FinishedStaysGone(rows: Rows, notified: nat, starts: string -> bool, bulkOk: bool, tunnels: set<string>)
    ensures GoneStaysGone(rows, tunnels, Finished(rows, notified, starts, bulkOk).1, tunnels)
  {
    MarkedOnlyStatus(rows, Unstarted(rows, starts));
    StatusStaysGone(rows, Marked(rows, Unstarted(rows, starts)), tunnels);
    SameRowsStayGone(rows, tunnels);
  }

  lemma MarkedOnlyStatus(rows: Rows, failed: set<string>)
    ensures OnlyStatus(rows, Marked(rows, failed)) && SameHosts(rows, Marked(rows, failed))
  {
  }

  /** What the second half of Reconcile returns and leaves: the rows and the number of notifications. */
  function Finished(rows: Rows, notified: nat, starts: string -> bool, bulkOk: bool): (bool, Rows, nat) {
    var failed := Unstarted(rows, starts);
    if failed == {} then (true, rows, notified)
    else if bulkOk then (true, Marked(rows, failed), notified + 1)
    else (false, rows, notified)
  }

  class Service {
    const proxy: ProxyServer
    /** The range of metrics ports. */
    const portStart: int
    const portEnd: int
    /** Cloudflare: the rules of each tunnel, and the DNS records. */
    var tunnels: map<string, seq<Rule>>
    var records: set<string>
    /** SQLite. */
    var rows: Rows
    /** How often subscribers were notified. */
    var published: nat
    /** The route list each tunnel's rules were compiled from. */
    ghost var sources: map<string, seq<Route>>

    ghost predicate Valid()
      reads this`tunnels, this`sources, proxy
    {
      && proxy.Valid()
      && forall t :: t in tunnels ==> t in sources && tunnels[t] == Rules(proxy.addr, sources[t])
    }

    /** What every mutation keeps: sound rows, and a proxy whose entries belong to them. */
    ghost predicate Sound()
      reads this`rows, proxy`byDomain
    {
      StateSound(proxy.addr, portStart, portEnd, rows, proxy.byDomain)
    }

    /** The route list a tunnel serves; nothing if the tunnel is gone. */
    ghost function ActiveAt(tunnelId: string): seq<Route>
      reads this`tunnels, this`sources
    {
      if tunnelId in tunnels && tunnelId in sources then sources[tunnelId] else []
    }

    ghost function ViewAt(id: string): View
      reads this`rows, this`tunnels, this`sources, proxy`byDomain
      requires id in rows
    {
      View(ActiveAt(rows[id].tunnelId), rows[id].routes, RoutesAt(proxy.byDomain, id))
    }

    constructor (addr: Host, portStart: int, portEnd: int)
      ensures Valid() && Sound() && fresh(proxy) && proxy.addr == addr
      ensures this.portStart == portStart && this.portEnd == portEnd
      ensures tunnels == map[] && records == {} && rows == map[] && published == 0 && proxy.byDomain == map[]
    {
      var p := new ProxyServer(addr);
      proxy := p;
      this.portStart := portStart;
      this.portEnd := portEnd;
      tunnels := map[];
      records := {};
      rows := map[];
      published := 0;
      sources := map[];
    }

    /** PutIngressConfig */
    method Put(tunnelId: string, rules: seq<Rule>, ghost source: seq<Route>, ok: bool) returns (done: bool)
      requires Valid() && rules == Rules(proxy.addr, source) && (ok ==> tunnelId in tunnels)
      modifies this`tunnels, this`sources
      ensures Valid()
      ensures done <==> ok && source != []
      ensures tunnels == if done then old(tunnels)[tunnelId := rules] else old(tunnels)
      ensures tunnels.Keys == old(tunnels).Keys
      ensures sources == if done then old(sources)[tunnelId := source] else old(sources)
    {
      if |rules| == 0 || !ok {
        return false;
      }
      tunnels := tunnels[tunnelId := rules];
      sources := sources[tunnelId := source];
      done := true;
    }

    /** The transaction of repo.ReplaceRoutes: origin, timestamp and the whole route list, or nothing.
        dbTime is SQLite's own clock. */
    method Persist(id: string, origin: Url, newRoutes: seq<Route>, dbTime: int, ok: bool) returns (done: bool)
      modifies this`rows
      ensures done <==> ok && id in old(rows)
      ensures rows == if done
              then old(rows)[id := old(rows)[id].(origin := origin, routes := newRoutes, updated := dbTime)]
              else old(rows)
    {
      if !ok || id !in rows {
        return false;
      }
      rows := rows[id := rows[id].(origin := origin, routes := newRoutes, updated := dbTime)];
      done := true;
    }

    // ---- the four effects, by what they do to the domain's view ----------------------------------

    /** PrepareDomain for a stored domain. */
    method Prepare(id: string, domain: Row, oldRoutes: seq<Route>, newRoutes: seq<Route>) returns (ok: bool)
      requires Valid() && id in rows && rows[id] == domain
      modifies proxy
      ensures Valid()
      ensures ok <==> Allowed(proxy.addr, domain.hostname, Merged(oldRoutes, newRoutes))
      ensures ViewAt(id) == if ok then old(ViewAt(id)).(proxy := Merged(oldRoutes, newRoutes)) else old(ViewAt(id))
      ensures OnlyEntry(old(proxy.byDomain), proxy.byDomain, id, domain.hostname)
    {
      ok := proxy.PrepareDomain(id, domain.hostname, oldRoutes, newRoutes);
    }

    /** CommitDomain and RollbackDomain, which are the same. */
    method Register(id: string, domain: Row, newRoutes: seq<Route>) returns (ok: bool)
      requires Valid() && id in rows && rows[id].hostname == domain.hostname
      modifies proxy
      ensures Valid()
      ensures ok <==> Allowed(proxy.addr, domain.hostname, newRoutes)
      ensures ViewAt(id) == old(ViewAt(id)).(proxy := Reregistered(proxy.addr, domain.hostname, newRoutes,
              old(ViewAt(id)).proxy))
      ensures OnlyEntry(old(proxy.byDomain), proxy.byDomain, id, domain.hostname)
    {
      ok := proxy.CommitDomain(id, domain.hostname, newRoutes);
    }

    /** Compile the rules and put them. */
    method Push(id: string, domain: Row, newRoutes: seq<Route>, ok: bool) returns (done: bool)
      requires Valid() && id in rows && rows[id] == domain && (ok ==> domain.tunnelId in tunnels)
      modifies this`tunnels, this`sources
      ensures Valid()
      ensures done <==> PutSucceeds(ok, newRoutes)
      ensures ViewAt(id) == if done then old(ViewAt(id)).(active := newRoutes) else old(ViewAt(id))
      ensures OnlyRules(old(tunnels), tunnels, domain.tunnelId)
    {
      var rules := CloudflareRules(proxy.addr, newRoutes);
      done := Put(domain.tunnelId, rules, newRoutes, ok);
    }

    // ---- the saga --------------------------------------------------------------------------------

    /** replaceRoutesLocked. trace lists the domain's view at the start and after every effect. */
    method ReplaceRoutesLocked(id: string, domain: Row, oldRoutes: seq<Route>, newRoutes: seq<Route>, origin: Url,
                               dbTime: int, o: Outcomes)
      returns (r: SagaResult, ghost trace: seq<View>)
      requires Valid() && id in rows && rows[id] == domain && (o.put || o.undo ==> domain.tunnelId in tunnels)
      modifies this`tunnels, this`sources, this`rows, this`published, proxy
      ensures Valid() && id in rows
      ensures trace == SagaViews(proxy.addr, domain.hostname, old(ViewAt(id)), oldRoutes, newRoutes, o)
      ensures ViewAt(id) == SagaEnd(proxy.addr, domain.hostname, old(ViewAt(id)), oldRoutes, newRoutes, o)
      ensures r == SagaOutcome(proxy.addr, domain.hostname, oldRoutes, newRoutes, o)
      ensures published == old(published) + if r == Replaced then 1 else 0
      ensures rows == if r in {Replaced, CommitRefused}
                      then old(rows)[id := domain.(origin := origin, routes := newRoutes, updated := dbTime)]
                      else old(rows)
      ensures OnlyEntry(old(proxy.byDomain), proxy.byDomain, id, domain.hostname)
      ensures OnlyRules(old(tunnels), tunnels, domain.tunnelId)
    {
      ghost var start := ViewAt(id);
      var ok := Prepare(id, domain, oldRoutes, newRoutes);
      if !ok {
        return ProxyRefused, [start];
      }
      ghost var prepared := ViewAt(id);
      ghost var rest;
      r, rest := PushOrRollback(id, domain, oldRoutes, newRoutes, origin, dbTime, o);
      trace := [start, prepared] + rest;
    }

    /** The first put and what follows; if it fails, the proxy goes back to the old routes. */
    method PushOrRollback(id: string, domain: Row, oldRoutes: seq<Route>, newRoutes: seq<Route>, origin: Url,
                          dbTime: int, o: Outcomes)
      returns (r: SagaResult, ghost rest: seq<View>)
      requires Valid() && id in rows && rows[id] == domain && (o.put || o.undo ==> domain.tunnelId in tunnels)
      modifies this`tunnels, this`sources, this`rows, this`published, proxy
      ensures Valid() && id in rows
      ensures rest == PushViews(proxy.addr, domain.hostname, old(ViewAt(id)), oldRoutes, newRoutes, o)
      ensures ViewAt(id) == rest[|rest| - 1]
      ensures r == if PutSucceeds(o.put, newRoutes)
              then StoreOutcome(proxy.addr, domain.hostname, oldRoutes, newRoutes, o) else RemoteFailed
      ensures published == old(published) + if r == Replaced then 1 else 0
      ensures rows == if r in {Replaced, CommitRefused}
                      then old(rows)[id := domain.(origin := origin, routes := newRoutes, updated := dbTime)]
                      else old(rows)
      ensures OnlyEntry(old(proxy.byDomain), proxy.byDomain, id, domain.hostname)
      ensures OnlyRules(old(tunnels), tunnels, domain.tunnelId)
    {
      var done := Push(id, domain, newRoutes, o.put);
      if !done {
        var _ := Register(id, domain, oldRoutes);
        return RemoteFailed, [ViewAt(id)];
      }
      ghost var pushed := ViewAt(id);
      ghost var more;
      r, more := StoreOrUndo(id, domain, oldRoutes, newRoutes, origin, dbTime, o);
      rest := [pushed] + more;
    }

    /** The second half: store and commit, or undo the remote and then the proxy. */
    method StoreOrUndo(id: string, domain: Row, oldRoutes: seq<Route>, newRoutes: seq<Route>, origin: Url,
                       dbTime: int, o: Outcomes)
      returns (r: SagaResult, ghost rest: seq<View>)
      requires Valid() && id in rows && rows[id] == domain && (o.undo ==> domain.tunnelId in tunnels)
      modifies this`tunnels, this`sources, this`rows, this`published, proxy
      ensures Valid() && id in rows
      ensures rest == StoreViews(proxy.addr, domain.hostname, old(ViewAt(id)), oldRoutes, newRoutes, o)
      ensures ViewAt(id) == if rest == [] then old(ViewAt(id)) else rest[|rest| - 1]
      ensures r == StoreOutcome(proxy.addr, domain.hostname, oldRoutes, newRoutes, o)
      ensures published == old(published) + if r == Replaced then 1 else 0
      ensures rows == if r in {Replaced, CommitRefused}
                      then old(rows)[id := domain.(origin := origin, routes := newRoutes, updated := dbTime)]
                      else old(rows)
      ensures OnlyEntry(old(proxy.byDomain), proxy.byDomain, id, domain.hostname)
      ensures OnlyRules(old(tunnels), tunnels, domain.tunnelId)
    {
      var ok := Persist(id, origin, newRoutes, dbTime, o.persist);
      if !ok {
        var undone;
        undone, rest := UndoRemote(id, domain, oldRoutes, o.undo);
        return PersistFailed(undone), rest;
      }
      ghost var stored := ViewAt(id);
      ok := Register(id, domain, newRoutes);
      rest := [stored, ViewAt(id)];
      if !ok {
        return CommitRefused, rest;
      }
      published := published + 1;
      r := Replaced;
    }

    /** The compensation after a failed transaction: restore the remote, and only then the proxy. */
    method UndoRemote(id: string, domain: Row, oldRoutes: seq<Route>, undoOk: bool)
      returns (undone: bool, ghost rest: seq<View>)
      requires Valid() && id in rows && rows[id] == domain && (undoOk ==> domain.tunnelId in tunnels)
      modifies this`tunnels, this`sources, proxy
      ensures Valid()
      ensures undone <==> PutSucceeds(undoOk, oldRoutes)
      ensures rest == UndoViews(proxy.addr, domain.hostname, old(ViewAt(id)), oldRoutes, undoOk)
      ensures ViewAt(id) == if rest == [] then old(ViewAt(id)) else rest[|rest| - 1]
      ensures OnlyEntry(old(proxy.byDomain), proxy.byDomain, id, domain.hostname)
      ensures OnlyRules(old(tunnels), tunnels, domain.tunnelId)
    {
      rest := [];
      undone := Push(id, domain, oldRoutes, undoOk);
      if undone {
        ghost var restored := ViewAt(id);
        var _ := Register(id, domain, oldRoutes);
        rest := [restored, ViewAt(id)];
      }
    }

    // ---- the two public replacements -----------------------------------------------------------

    /** The outcomes a replacement of row id really meets. */
    function Met(id: string, o: Outcomes): Outcomes
      reads this`rows, this`tunnels
    {
      Reaching(o, id in rows && rows[id].tunnelId in tunnels)
    }

    /** ReplaceRoutes. stored is what ListRoutes returns for the domain under the lock. */
    method ReplaceRoutes(id: string, inputs: seq<RouteInput>, stored: seq<Route>, now: int, dbTime: int,
                         ids: nat -> string,
                         read: bool, o: Outcomes)
      returns (r: MutationResult, ghost trace: seq<View>)
      requires Valid() && (id in rows ==> ListedAs(stored, rows[id].routes))
      modifies this`tunnels, this`sources, this`rows, this`published, proxy
      ensures Valid() && (old(Sound()) ==> Sound())
      ensures r == if !Accepted(inputs, false) then InvalidRoutes
                   else if !read then ReadFailed
                   else if id !in old(rows) then NoDomain
                   else Ran(SagaOutcome(proxy.addr, old(rows)[id].hostname, stored,
                           NormalRoutes(id, inputs, now, false, ids), old(Met(id, o))))
      ensures r.Ran? ==> id in old(rows) && id in rows
                         && trace == SagaViews(proxy.addr, old(rows)[id].hostname, old(ViewAt(id)), stored,
                                               NormalRoutes(id, inputs, now, false, ids), old(Met(id, o)))
                         && trace != [] && ViewAt(id) == trace[|trace| - 1]
                         && OnlyRules(old(tunnels), tunnels, old(rows)[id].tunnelId)
      ensures r == Ran(Replaced) <==>
                && Accepted(inputs, false) && read && id in old(rows) && old(rows)[id].tunnelId in old(tunnels)
                && Allowed(proxy.addr, old(rows)[id].hostname,
                           Merged(stored, NormalRoutes(id, inputs, now, false, ids)))
                && o.put && o.persist
      ensures GoneStaysGone(old(rows), old(tunnels).Keys, rows, tunnels.Keys)
      ensures !r.Ran? ==> tunnels == old(tunnels) && proxy.byDomain == old(proxy.byDomain)
      ensures r != Ran(Replaced) ==> rows == old(rows)
      ensures r == Ran(Replaced) ==>
                && HasRoot(inputs, false, rows[id].origin)
                && rows == old(rows)[id := old(rows)[id].(origin := rows[id].origin, routes := rows[id].routes,
                    updated := dbTime)]
      ensures proxy.byDomain - {id} == old(proxy.byDomain) - {id}
      ensures published == old(published) + if r == Ran(Replaced) then 1 else 0
    {
      SameRowsStayGone(rows, tunnels.Keys);
      trace := [];
      var normal := NormalizeRoutes(id, inputs, now, ids);
      if normal.Err? {
        return InvalidRoutes, [];
      }
      if !read {
        return ReadFailed, [];
      }
      if id !in rows {
        return NoDomain, [];
      }
      var saga;
      saga, trace := ReplaceAccepted(id, inputs, stored, normal.value.0, normal.value.1, now, dbTime, ids, o);
      r := Ran(saga);
    }

    /** The same for an accepted set and a row that was read. */
    method ReplaceAccepted(id: string, ghost inputs: seq<RouteInput>, stored: seq<Route>, newRoutes: seq<Route>,
                           origin: Url, ghost now: int, dbTime: int, ghost ids: nat -> string, o: Outcomes)
      returns (r: SagaResult, ghost trace: seq<View>)
      requires Valid() && id in rows && ListedAs(stored, rows[id].routes)
      requires Accepted(inputs, false) && HasRoot(inputs, false, origin)
      requires newRoutes == NormalRoutes(id, inputs, now, false, ids)
      modifies this`tunnels, this`sources, this`rows, this`published, proxy
      ensures Valid() && id in rows && (old(Sound()) ==> Sound())
      ensures r == SagaOutcome(proxy.addr, old(rows)[id].hostname, stored, newRoutes, old(Met(id, o)))
      ensures trace == SagaViews(proxy.addr, old(rows)[id].hostname, old(ViewAt(id)), stored, newRoutes,
              old(Met(id, o)))
      ensures trace != [] && ViewAt(id) == trace[|trace| - 1]
      ensures r == Replaced <==>
                && old(rows)[id].tunnelId in old(tunnels)
                && Allowed(proxy.addr, old(rows)[id].hostname, Merged(stored, newRoutes)) && o.put && o.persist
      ensures OnlyRules(old(tunnels), tunnels, old(rows)[id].tunnelId)
      ensures GoneStaysGone(old(rows), old(tunnels).Keys, rows, tunnels.Keys)
      ensures rows == if r == Replaced
              then old(rows)[id := old(rows)[id].(origin := origin, routes := newRoutes, updated := dbTime)]
              else old(rows)
      ensures proxy.byDomain - {id} == old(proxy.byDomain) - {id}
      ensures published == old(published) + if r == Replaced then 1 else 0
    {
      ReplacementFacts(proxy.addr, rows[id].hostname, id, inputs, now, ids, origin, stored, o,
          rows[id].tunnelId in tunnels);
      r, trace := ReplaceKept(id, stored, newRoutes, origin, dbTime, Met(id, o));
    }

    /** The locked part on the stored row, with what it keeps for all domains. */
    method ReplaceKept(id: string, stored: seq<Route>, newRoutes: seq<Route>, origin: Url, dbTime: int, o: Outcomes)
      returns (r: SagaResult, ghost trace: seq<View>)
      requires Valid() && id in rows && (o.put || o.undo ==> rows[id].tunnelId in tunnels)
      requires ListedAs(stored, rows[id].routes) && Normalised(id, newRoutes) && RootOrigin(newRoutes, origin)
      modifies this`tunnels, this`sources, this`rows, this`published, proxy
      ensures Valid() && id in rows && (old(Sound()) ==> Sound())
      ensures r == SagaOutcome(proxy.addr, old(rows)[id].hostname, stored, newRoutes, o)
      ensures trace == SagaViews(proxy.addr, old(rows)[id].hostname, old(ViewAt(id)), stored, newRoutes, o)
      ensures trace != [] && ViewAt(id) == trace[|trace| - 1]
      ensures OnlyRules(old(tunnels), tunnels, old(rows)[id].tunnelId)
      ensures rows == if r == Replaced
              then old(rows)[id := old(rows)[id].(origin := origin, routes := newRoutes, updated := dbTime)]
              else old(rows)
      ensures proxy.byDomain - {id} == old(proxy.byDomain) - {id}
      ensures GoneStaysGone(old(rows), old(tunnels).Keys, rows, tunnels.Keys)
      ensures published == old(published) + if r == Replaced then 1 else 0
    {
      ghost var before, entries, active := rows, proxy.byDomain, ActiveAt(rows[id].tunnelId);
      r, trace := ReplaceTraced(id, stored, newRoutes, origin, dbTime, o);
      ReplacingFrame(proxy.addr, before, entries, rows, proxy.byDomain, id, stored, newRoutes, origin, dbTime,
          active, o);
      SameRowsStayGone(before, tunnels.Keys);
      ReroutedStaysGone(before, id, before[id].(origin := origin, routes := newRoutes, updated := dbTime),
          tunnels.Keys);
      SoundAfterReplacing(proxy.addr, portStart, portEnd, before, entries, rows, proxy.byDomain, id, stored, newRoutes,
                          origin, dbTime, active, o);
    }

    /** The same, with the state change in one predicate. */
    method ReplaceTraced(id: string, stored: seq<Route>, newRoutes: seq<Route>, origin: Url, dbTime: int, o: Outcomes)
      returns (r: SagaResult, ghost trace: seq<View>)
      requires Valid() && id in rows && (o.put || o.undo ==> rows[id].tunnelId in tunnels)
      modifies this`tunnels, this`sources, this`rows, this`published, proxy
      ensures Valid() && id in rows
      ensures r == SagaOutcome(proxy.addr, old(rows)[id].hostname, stored, newRoutes, o)
      ensures trace == SagaViews(proxy.addr, old(rows)[id].hostname, old(ViewAt(id)), stored, newRoutes, o)
      ensures trace != [] && ViewAt(id) == trace[|trace| - 1]
      ensures OnlyRules(old(tunnels), tunnels, old(rows)[id].tunnelId)
      ensures published == old(published) + if r == Replaced then 1 else 0
      ensures Replacing(proxy.addr, old(rows), old(proxy.byDomain), rows, proxy.byDomain, id, stored, newRoutes,
              origin, dbTime,
                        old(ActiveAt(rows[id].tunnelId)), o)
    {
      r, trace := ReplaceRoutesLocked(id, rows[id], stored, newRoutes, origin, dbTime, o);
    }

    /** The deprecated UpdateOrigin: the stored set with another origin on its root. */
    method UpdateOrigin(id: string, origin: Option<Url>, stored: seq<Route>, now: int, dbTime: int,
                        ids: nat -> string,
                        read: bool, o: Outcomes)
      returns (r: MutationResult, ghost trace: seq<View>)
      requires Valid() && (id in rows ==> ListedAs(stored, rows[id].routes))
      modifies this`tunnels, this`sources, this`rows, this`published, proxy
      ensures Valid() && (old(Sound()) ==> Sound())
      ensures r == if !read then ReadFailed
                   else if id !in old(rows) then NoDomain
                   else if !Accepted(RootInputs(origin, stored), false) then InvalidRoutes
                   else Ran(SagaOutcome(proxy.addr, old(rows)[id].hostname, stored,
                                        NormalRoutes(id, RootInputs(origin, stored), now, false, ids), old(Met(id, o))))
      ensures r.Ran? ==> id in old(rows) && id in rows
                         && trace == SagaViews(proxy.addr, old(rows)[id].hostname, old(ViewAt(id)), stored,
                                               NormalRoutes(id, RootInputs(origin, stored), now, false, ids),
                                                   old(Met(id, o)))
                         && trace != [] && ViewAt(id) == trace[|trace| - 1]
                         && OnlyRules(old(tunnels), tunnels, old(rows)[id].tunnelId)
      ensures r == Ran(Replaced) <==>
                && Accepted(RootInputs(origin, stored), false) && read
                && id in old(rows) && old(rows)[id].tunnelId in old(tunnels)
                && Allowed(proxy.addr, old(rows)[id].hostname,
                           Merged(stored, NormalRoutes(id, RootInputs(origin, stored), now, false, ids)))
                && o.put && o.persist
      ensures GoneStaysGone(old(rows), old(tunnels).Keys, rows, tunnels.Keys)
      ensures !r.Ran? ==> tunnels == old(tunnels) && proxy.byDomain == old(proxy.byDomain)
      ensures r != Ran(Replaced) ==> rows == old(rows)
      ensures r == Ran(Replaced) ==>
                && HasRoot(RootInputs(origin, stored), false, rows[id].origin)
                && rows == old(rows)[id := old(rows)[id].(origin := rows[id].origin, routes := rows[id].routes,
                    updated := dbTime)]
      ensures proxy.byDomain - {id} == old(proxy.byDomain) - {id}
      ensures published == old(published) + if r == Ran(Replaced) then 1 else 0
    {
      if !read {
        return ReadFailed, [];
      }
      if id !in rows {
        return NoDomain, [];
      }
      var inputs := RootReplaced(stored, origin);
      r, trace := ReplaceRoutes(id, inputs, stored, now, dbTime, ids, true, o);
    }

    // ---- creation --------------------------------------------------------------------------------

    /** Names nobody uses yet. */
    ghost predicate Fresh(n: Names)
      reads this`rows, this`tunnels, this`records, proxy`byDomain
    {
      && n.id !in rows && n.id !in proxy.byDomain && n.tunnelId !in tunnels && n.recordId !in records
      && forall id :: id in rows ==> rows[id].tunnelId != n.tunnelId
    }

    ghost function Resources(): World
      reads this`tunnels, this`records, proxy`byDomain
    {
      World(tunnels, proxy.byDomain, records)
    }

    function RulesOf(tunnelId: string): seq<Rule>
      reads this`tunnels
    {
      if tunnelId in tunnels then tunnels[tunnelId] else []
    }

    function PortsTaken(): set<int>
      reads this`rows
    {
      set id | id in rows :: rows[id].port
    }

    predicate HostnameTaken(hostname: string)
      reads this`rows
    {
      exists id :: id in rows && rows[id].hostname == hostname
    }

    /** Every step of CreateDomain up to the stored row would succeed. */
    ghost predicate Creatable(hostname: string, newRoutes: seq<Route>, o: CreateOutcomes)
      reads this`rows
    {
      && o.zone && !HostnameTaken(hostname)
      && o.tunnel && Allowed(proxy.addr, hostname, newRoutes) && PutSucceeds(o.put, newRoutes) && o.record
      && o.encrypt && o.listPorts && !PortAlloc.IsFirstFree(portStart, portEnd, PortsTaken(), None) && o.persist
    }

    /** The external steps. Each one that creates something pushes its compensation. */
    method Provision(n: Names, hostname: string, newRoutes: seq<Route>, o: CreateOutcomes)
      returns (ok: bool, revert: seq<Undo>)
      requires Valid() && Fresh(n)
      modifies this`tunnels, this`sources, this`records, proxy
      ensures Valid()
      ensures ok <==> o.tunnel && Allowed(proxy.addr, hostname, newRoutes) && PutSucceeds(o.put, newRoutes) && o.record
      ensures |revert| <= 3 && revert == Reverts(n)[..|revert|]
      ensures ok <==> |revert| == 3
      ensures Resources() == GrownWorld(old(Resources()), n, |revert|, RulesOf(n.tunnelId),
              DomainSnapshot(hostname, Stripped(newRoutes)))
      ensures ok ==> RulesOf(n.tunnelId) == Rules(proxy.addr, newRoutes) && ActiveAt(n.tunnelId) == newRoutes
    {
      ghost var w0 := Resources();
      ok, revert := OpenTunnel(n, hostname, newRoutes, o);
      if ok {
        ok, revert := PublishTunnel(n, newRoutes, revert, o, w0, DomainSnapshot(hostname, Stripped(newRoutes)));
      }
    }

    /** The rules and the DNS record. */
    method PublishTunnel(n: Names, newRoutes: seq<Route>, before: seq<Undo>, o: CreateOutcomes, ghost w0: World,
                         ghost snap: DomainSnapshot)
      returns (ok: bool, revert: seq<Undo>)
      requires Valid() && n.tunnelId in tunnels && before == Reverts(n)[..2]
      requires Resources() == GrownWorld(w0, n, 2, RulesOf(n.tunnelId), snap)
      modifies this`tunnels, this`sources, this`records
      ensures Valid()
      ensures ok <==> PutSucceeds(o.put, newRoutes) && o.record
      ensures revert == Reverts(n)[..if ok then 3 else 2]
      ensures Resources() == GrownWorld(w0, n, |revert|, RulesOf(n.tunnelId), snap)
      ensures ok ==> RulesOf(n.tunnelId) == Rules(proxy.addr, newRoutes) && ActiveAt(n.tunnelId) == newRoutes
    {
      revert := before;
      var rules := CloudflareRules(proxy.addr, newRoutes);
      PublishedWorld(w0, n, RulesOf(n.tunnelId), rules, snap);
      ok := Put(n.tunnelId, rules, newRoutes, o.put);
      if !ok || !o.record {
        return false, revert;
      }
      records := records + {n.recordId};
      revert := revert + [DeleteRecord(n.recordId)];
    }

    /** The tunnel and the proxy entry. */
    method OpenTunnel(n: Names, hostname: string, newRoutes: seq<Route>, o: CreateOutcomes)
      returns (ok: bool, revert: seq<Undo>)
      requires Valid() && Fresh(n)
      modifies this`tunnels, this`sources, proxy
      ensures Valid()
      ensures ok <==> o.tunnel && Allowed(proxy.addr, hostname, newRoutes)
      ensures revert == Reverts(n)[..if ok then 2 else if o.tunnel then 1 else 0]
      ensures Resources() == GrownWorld(old(Resources()), n, |revert|, RulesOf(n.tunnelId),
              DomainSnapshot(hostname, Stripped(newRoutes)))
      ensures ok ==> n.tunnelId in tunnels
    {
      revert := [];
      if !o.tunnel {
        return false, revert;
      }
      tunnels := tunnels[n.tunnelId := []];
      sources := sources[n.tunnelId := []];
      revert := revert + [DeleteTunnel(n.tunnelId)];
      ok := proxy.CommitDomain(n.id, hostname, newRoutes);
      if ok {
        revert := revert + [RemoveProxy(n.id)];
      }
    }

    /** The token, the port and the row. */
    method Store(n: Names, hostname: string, zoneId: string, origin: Url, newRoutes: seq<Route>, now: int,
                 o: CreateOutcomes)
      returns (row: Option<Row>)
      modifies this`rows, this`published
      ensures row.None? ==> rows == old(rows) && published == old(published)
      ensures row.Some? ==> rows == old(rows)[n.id := row.value] && published == old(published) + 1
      ensures row.Some? ==> PortAlloc.IsFirstFree(portStart, portEnd, old(PortsTaken()), Some(row.value.port))
      ensures row.Some? ==>
              row.value == Row(hostname, zoneId, n.tunnelId, n.recordId, origin, Pending, row.value.port,
                  newRoutes, now)
      ensures row.None? <==> !o.encrypt || !o.listPorts || !o.persist
                             || PortAlloc.IsFirstFree(portStart, portEnd, old(PortsTaken()), None)
    {
      if !o.encrypt || !o.listPorts {
        return None;
      }
      var port := PortAlloc.Allocate(portStart, portEnd, PortsTaken());
      if port.None? || !o.persist {
        return None;
      }
      var stored := Row(hostname, zoneId, n.tunnelId, n.recordId, origin, Pending, port.value, newRoutes, now);
      rows := rows[n.id := stored];
      published := published + 1;
      row := Some(stored);
    }

    /** The deferred loop: the compensations in reverse order. A delete that fails is ignored. */
    method Unwind(revert: seq<Undo>, o: CreateOutcomes)
      requires Valid()
      modifies this`tunnels, this`records, proxy
      ensures Valid()
      ensures Resources() == Unwound(old(Resources()), revert, o)
    {
      var i := |revert|;
      assert revert[..i] == revert;
      while i > 0
        invariant 0 <= i <= |revert| && Valid()
        invariant Unwound(Resources(), revert[..i], o) == Unwound(old(Resources()), revert, o)
      {
        i := i - 1;
        assert revert[..i + 1][..i] == revert[..i];
        UndoStep(revert[i], o);
      }
    }

    method Compensate(ghost w0: World, n: Names, revert: seq<Undo>, o: CreateOutcomes)
      requires Valid() && Grown(w0, Resources(), n, revert)
      modifies this`tunnels, this`records, proxy
      ensures Valid() && Leftover(w0, Resources(), n, o)
    {
      UnwoundLeftover(w0, Resources(), n, revert, o);
      Unwind(revert, o);
    }

    method UndoStep(u: Undo, o: CreateOutcomes)
      requires Valid()
      modifies this`tunnels, this`records, proxy
      ensures Valid()
      ensures Resources() == UndoOne(old(Resources()), u, o)
    {
      match u {
        case DeleteTunnel(t) =>
          if o.deleteTunnel { tunnels := tunnels - {t}; }
        case RemoveProxy(id) =>
          proxy.RemoveDomain(id);
        case DeleteRecord(rec) =>
          if o.deleteRecord { records := records - {rec}; }
      }
    }

    /** CreateDomain. hostname is what validateZoneHostname returns when it accepts. */
    method CreateDomain(n: Names, hostname: string, zoneId: string, inputs: seq<RouteInput>, now: int,
                        ids: nat -> string, o: CreateOutcomes)
      returns (created: Option<Row>, stored: Option<Row>)
      requires Valid() && Fresh(n)
      modifies this`tunnels, this`sources, this`records, this`rows, this`published, proxy
      ensures Valid() && (old(Sound()) ==> Sound())
      ensures stored.Some? <==>
                && Accepted(inputs, false)
                && old(Creatable(hostname, NormalRoutes(n.id, inputs, now, false, ids), o))
      ensures stored.None? ==> Leftover(old(Resources()), Resources(), n, o)
      ensures stored.Some? ==>
              Built(proxy.addr, n, hostname, zoneId, inputs, now, ids, stored.value, old(Resources()), Resources())
      ensures stored.Some? ==> PortAlloc.IsFirstFree(portStart, portEnd, old(PortsTaken()), Some(stored.value.port))
      ensures stored.Some? ==> ActiveAt(n.tunnelId) == stored.value.routes
      ensures GoneStaysGone(old(rows), old(tunnels).Keys, rows, tunnels.Keys)
      ensures created == Reported(stored, o)
      ensures rows == RowsAfter(old(rows), n.id, stored, o)
      ensures published == old(published) + (if stored.None? then 0 else if o.spawn || !o.markError then 1 else 2)
    {
      ghost var before, w0 := rows, Resources();
      created, stored := BuildAndStart(n, hostname, zoneId, inputs, now, ids, o);
      CreationBringsNothingBack(before, w0, Resources(), n, stored, o);
      if stored.Some? {
        SoundAfterCreation(proxy.addr, portStart, portEnd, before, w0, Resources(), n, hostname, zoneId, inputs, now,
            ids, stored.value, o);
      }
    }

    /** The part that is built, or unwound, and then started, or marked. */
    method BuildAndStart(n: Names, hostname: string, zoneId: string, inputs: seq<RouteInput>, now: int,
                         ids: nat -> string, o: CreateOutcomes)
      returns (created: Option<Row>, stored: Option<Row>)
      requires Valid() && Fresh(n)
      modifies this`tunnels, this`sources, this`records, this`rows, this`published, proxy
      ensures Valid()
      ensures stored.Some? <==>
                && Accepted(inputs, false)
                && old(Creatable(hostname, NormalRoutes(n.id, inputs, now, false, ids), o))
      ensures stored.None? ==> Leftover(old(Resources()), Resources(), n, o)
      ensures stored.Some? ==>
              Built(proxy.addr, n, hostname, zoneId, inputs, now, ids, stored.value, old(Resources()), Resources())
      ensures stored.Some? ==> PortAlloc.IsFirstFree(portStart, portEnd, old(PortsTaken()), Some(stored.value.port))
      ensures stored.Some? ==> ActiveAt(n.tunnelId) == stored.value.routes
      ensures created == Reported(stored, o)
      ensures rows == RowsAfter(old(rows), n.id, stored, o)
      ensures published == old(published) + (if stored.None? then 0 else if o.spawn || !o.markError then 1 else 2)
    {
      ghost var before, notified := rows, published;
      stored := BuildOrUnwind(n, hostname, zoneId, inputs, now, ids, o);
      created := StartOrMark(n.id, stored, o, before, notified);
    }

    /** Start the process of a stored row; a failure is recorded, not undone. */
    method StartOrMark(id: string, stored: Option<Row>, o: CreateOutcomes, ghost before: Rows, ghost notified: nat)
      returns (created: Option<Row>)
      requires rows == if stored.Some? then before[id := stored.value] else before
      requires published == if stored.Some? then notified + 1 else notified
      modifies this`rows, this`published
      ensures created == Reported(stored, o)
      ensures rows == RowsAfter(before, id, stored, o)
      ensures published == notified + (if stored.None? then 0 else if o.spawn || !o.markError then 1 else 2)
    {
      created := Reported(stored, o);
      if stored.Some? && !o.spawn && o.markError {
        rows := rows[id := created.value];
        published := published + 1;
      }
    }

    /** The part of CreateDomain whose errors run the deferred loop. */
    method BuildOrUnwind(n: Names, hostname: string, zoneId: string, inputs: seq<RouteInput>, now: int,
                         ids: nat -> string, o: CreateOutcomes)
      returns (row: Option<Row>)
      requires Valid() && Fresh(n)
      modifies this`tunnels, this`sources, this`records, this`rows, this`published, proxy
      ensures Valid()
      ensures row.Some? <==>
                && Accepted(inputs, false)
                && old(Creatable(hostname, NormalRoutes(n.id, inputs, now, false, ids), o))
      ensures row.None? ==> rows == old(rows) && published == old(published)
      ensures row.None? ==> Leftover(old(Resources()), Resources(), n, o)
      ensures row.Some? ==>
              Built(proxy.addr, n, hostname, zoneId, inputs, now, ids, row.value, old(Resources()), Resources())
      ensures row.Some? ==> PortAlloc.IsFirstFree(portStart, portEnd, old(PortsTaken()), Some(row.value.port))
      ensures row.Some? ==> ActiveAt(n.tunnelId) == row.value.routes
      ensures row.Some? ==> rows == old(rows)[n.id := row.value] && published == old(published) + 1
    {
      ghost var w0 := Resources();
      var revert;
      row, revert := Build(n, hostname, zoneId, inputs, now, ids, o);
      if row.None? {
        Compensate(w0, n, revert, o);
      }
    }

    /** CreateDomain up to and including the stored row, with the compensations pushed so far. */
    method Build(n: Names, hostname: string, zoneId: string, inputs: seq<RouteInput>, now: int, ids: nat -> string,
                 o: CreateOutcomes)
      returns (row: Option<Row>, revert: seq<Undo>)
      requires Valid() && Fresh(n)
      modifies this`tunnels, this`sources, this`records, this`rows, this`published, proxy
      ensures Valid()
      ensures row.Some? <==>
                && Accepted(inputs, false)
                && old(Creatable(hostname, NormalRoutes(n.id, inputs, now, false, ids), o))
      ensures row.None? ==> rows == old(rows) && published == old(published)
      ensures row.None? ==> Grown(old(Resources()), Resources(), n, revert)
      ensures row.Some? ==>
              Built(proxy.addr, n, hostname, zoneId, inputs, now, ids, row.value, old(Resources()), Resources())
      ensures row.Some? ==> PortAlloc.IsFirstFree(portStart, portEnd, old(PortsTaken()), Some(row.value.port))
      ensures row.Some? ==> ActiveAt(n.tunnelId) == row.value.routes
      ensures row.Some? ==> rows == old(rows)[n.id := row.value] && published == old(published) + 1
    {
      revert := [];
      if !o.zone || HostnameTaken(hostname) {
        return None, revert;
      }
      var normal := NormalizeRoutes(n.id, inputs, now, ids);
      if normal.Err? {
        return None, revert;
      }
      row, revert := BuildNormal(n, hostname, zoneId, normal.value.1, normal.value.0, now, o);
    }

    /** The same, once the routes are normalised. */
    method BuildNormal(n: Names, hostname: string, zoneId: string, origin: Url, newRoutes: seq<Route>, now: int,
                       o: CreateOutcomes)
      returns (row: Option<Row>, revert: seq<Undo>)
      requires Valid() && Fresh(n) && o.zone && !HostnameTaken(hostname)
      modifies this`tunnels, this`sources, this`records, this`rows, this`published, proxy
      ensures Valid()
      ensures row.Some? <==> old(Creatable(hostname, newRoutes, o))
      ensures row.None? ==> rows == old(rows) && published == old(published)
      ensures row.None? ==> Grown(old(Resources()), Resources(), n, revert)
      ensures row.Some? ==>
              row.value == Row(hostname, zoneId, n.tunnelId, n.recordId, origin, Pending, row.value.port,
                  newRoutes, now)
      ensures row.Some? ==> Resources() == GrownWorld(old(Resources()), n, 3, Rules(proxy.addr, newRoutes),
              DomainSnapshot(hostname, Stripped(newRoutes)))
      ensures row.Some? ==> PortAlloc.IsFirstFree(portStart, portEnd, old(PortsTaken()), Some(row.value.port))
      ensures row.Some? ==> ActiveAt(n.tunnelId) == newRoutes
      ensures row.Some? ==> rows == old(rows)[n.id := row.value] && published == old(published) + 1
    {
      var ok;
      ok, revert := Provision(n, hostname, newRoutes, o);
      GrownBy(old(Resources()), n, |revert|, RulesOf(n.tunnelId), DomainSnapshot(hostname, Stripped(newRoutes)));
      if !ok {
        return None, revert;
      }
      row := Store(n, hostname, zoneId, origin, newRoutes, now, o);
    }

    // ---- deletion ----------------------------------------------------------------------------------

    /** DeleteDomain. stored is what ListRoutes returns for the domain under the lock. The two Cloudflare
        deletes are best effort; the proxy entry is taken out first and put back if the row stays. */
    method DeleteDomain(id: string, stored: seq<Route>, o: DeleteOutcomes) returns (r: DeleteResult)
      requires Valid() && (id in rows ==> ListedAs(stored, rows[id].routes))
      modifies this`tunnels, this`records, this`rows, this`published, proxy
      ensures Valid() && (old(Sound()) ==> Sound())
      ensures r == if !o.read then Unread else if id !in old(rows) then Missing
                   else if o.running && !o.stop then StopFailed
                   else if o.persist then Deleted else StoreFailed
      ensures rows == if r == Deleted then old(rows) - {id} else old(rows)
      ensures proxy.byDomain == if r == Deleted || r == StoreFailed
                                then EntriesAfter(proxy.addr, old(proxy.byDomain), id, old(rows)[id].hostname,
                                    stored, r == Deleted)
                                else old(proxy.byDomain)
      ensures tunnels == if (r == Deleted || r == StoreFailed) && o.deleteTunnel
              then old(tunnels) - {old(rows)[id].tunnelId} else old(tunnels)
      ensures records == if (r == Deleted || r == StoreFailed) && o.deleteRecord
              then old(records) - {old(rows)[id].recordId} else old(records)
      ensures published == old(published) + if r == Deleted then 1 else 0
      ensures GoneStaysGone(old(rows), old(tunnels).Keys, rows, tunnels.Keys)
    {
      if !o.read {
        return Unread;
      }
      if id !in rows {
        return Missing;
      }
      if o.running {
        if !o.stop {
          return StopFailed;
        }
      }
      if o.deleteRecord { records := records - {rows[id].recordId}; }
      if o.deleteTunnel { tunnels := tunnels - {rows[id].tunnelId}; }
      r := RemoveOrRestore(id, stored, o.persist);
    }

    /** The proxy entry goes, then the row; if the row stays, the entry comes back. */
    method RemoveOrRestore(id: string, stored: seq<Route>, persist: bool) returns (r: DeleteResult)
      requires Valid() && id in rows && ListedAs(stored, rows[id].routes)
      modifies this`rows, this`published, proxy
      ensures Valid() && (old(Sound()) ==> Sound())
      ensures r == if persist then Deleted else StoreFailed
      ensures rows == if persist then old(rows) - {id} else old(rows)
      ensures proxy.byDomain == EntriesAfter(proxy.addr, old(proxy.byDomain), id, old(rows)[id].hostname, stored,
              persist)
      ensures published == old(published) + if persist then 1 else 0
    {
      ghost var before, entries := rows, proxy.byDomain;
      proxy.RemoveDomain(id);
      if persist {
        rows := rows - {id};
        published := published + 1;
        r := Deleted;
      } else {
        var _ := proxy.RollbackDomain(id, rows[id].hostname, stored);
        r := StoreFailed;
      }
      SoundAfterDeletion(proxy.addr, portStart, portEnd, before, entries, id, stored, persist);
    }

    // ---- start-up ----------------------------------------------------------------------------------

    /** Reconcile. all and lists are what ListAll and ListRoutesByDomainIDs return if they succeed; starts
        says whose process would start. */
    method Reconcile(listed: bool, all: seq<string>, lists: map<string, seq<Route>>, starts: string -> bool,
                     bulkOk: bool, now: int, ids: string -> nat -> string)
      returns (r: StartResult)
      requires Valid() && Lists(all, rows)
      modifies this`rows, this`published, proxy
      ensures Valid() && (old(Sound()) ==> Sound())
      ensures GoneStaysGone(old(rows), old(tunnels).Keys, rows, tunnels.Keys)
      ensures r.ListFailed? <==> !listed
      ensures r.RowRefused? <==> listed && !AllLoadable(proxy.addr, old(rows), lists, all, now, ids)
      ensures r.RowRefused? ==> FirstRefused(proxy.addr, old(rows), lists, all, r.at, now, ids)
      ensures r.ListFailed? || r.RowRefused? ==> rows == old(rows) && published == old(published)
      ensures proxy.byDomain == Hydrated(old(proxy.byDomain), old(rows), lists, Loaded(all, r), now, ids)
      ensures r == Started || r == BulkFailed ==>
                (r == Started, rows, published) == Finished(old(rows), old(published), starts, bulkOk)
    {
      SameRowsStayGone(rows, tunnels.Keys);
      if !listed {
        return ListFailed;
      }
      var n := Hydrate(all, lists, now, ids);
      if n < |all| {
        return RowRefused(n);
      }
      var ok := FinishStart(all, starts, bulkOk);
      r := if ok then Started else BulkFailed;
    }

    /** The first loop: n is the position of the first row that cannot be loaded. */
    method Hydrate(all: seq<string>, lists: map<string, seq<Route>>, now: int, ids: string -> nat -> string)
      returns (n: nat)
      requires Valid() && Lists(all, rows)
      modifies proxy
      ensures Valid() && n <= |all| && (old(Sound()) ==> Sound())
      ensures n == |all| <==> AllLoadable(proxy.addr, rows, lists, all, now, ids)
      ensures n < |all| ==> FirstRefused(proxy.addr, rows, lists, all, n, now, ids)
      ensures proxy.byDomain == Hydrated(old(proxy.byDomain), rows, lists, if n < |all| then all[..n] else all,
              now, ids)
    {
      n := 0;
      while n < |all|
        invariant n <= |all| && Valid()
        invariant AllLoadable(proxy.addr, rows, lists, all[..n], now, ids)
        invariant proxy.byDomain == Hydrated(old(proxy.byDomain), rows, lists, all[..n], now, ids)
      {
        HydratedSnoc(old(proxy.byDomain), rows, lists, all, n, now, ids);
        LoadableSnoc(proxy.addr, rows, lists, all, n, now, ids);
        var ok := HydrateOne(all[n], Listed(lists, all[n]), now, ids(all[n]));
        if !ok {
          HydrationKeepsSound(old(proxy.byDomain), all[..n], lists, now, ids);
          return n;
        }
        n := n + 1;
      }
      assert all[..n] == all;
      HydrationKeepsSound(old(proxy.byDomain), all[..n], lists, now, ids);
    }

    lemma HydrationKeepsSound(before: Domains, loaded: seq<string>, lists: map<string, seq<Route>>, now: int,
                              ids: string -> nat -> string)
      requires AllLoadable(proxy.addr, rows, lists, loaded, now, ids)
      requires proxy.byDomain == Hydrated(before, rows, lists, loaded, now, ids)
      ensures StateSound(proxy.addr, portStart, portEnd, rows, before) ==> Sound()
    {
      if StateSound(proxy.addr, portStart, portEnd, rows, before) {
        HydratedSound(proxy.addr, before, rows, lists, loaded, now, ids);
      }
    }

    method HydrateOne(id: string, listed: seq<Route>, now: int, ids: nat -> string) returns (ok: bool)
      requires Valid() && id in rows
      modifies proxy
      ensures Valid()
      ensures ok <==> Loadable(proxy.addr, rows[id].hostname, id, listed, now, ids)
      ensures proxy.byDomain == if ok
              then old(proxy.byDomain)[id := LoadedSnapshot(rows[id].hostname, id, listed, now, ids)]
                                else old(proxy.byDomain)
    {
      var normal := NormalizePersistedRoutes(id, listed, now, ids);
      if normal.Err? {
        return false;
      }
      ok := proxy.CommitDomain(id, rows[id].hostname, normal.value);
    }

    /** Start the processes and record the failures in one bulk update. */
    method FinishStart(all: seq<string>, starts: string -> bool, bulkOk: bool) returns (ok: bool)
      requires Valid() && Lists(all, rows)
      modifies this`rows, this`published
      ensures Valid() && (old(Sound()) ==> Sound())
      ensures (ok, rows, published) == Finished(old(rows), old(published), starts, bulkOk)
      ensures GoneStaysGone(old(rows), tunnels.Keys, rows, tunnels.Keys)
    {
      ghost var before, notified := rows, published;
      ok := MarkUnstarted(all, starts, bulkOk);
      FinishedStaysGone(before, notified, starts, bulkOk, tunnels.Keys);
      if StateSound(proxy.addr, portStart, portEnd, before, proxy.byDomain) {
        FinishedKeepsSound(proxy.addr, portStart, portEnd, before, notified, starts, bulkOk, proxy.byDomain);
      }
    }

    method MarkUnstarted(all: seq<string>, starts: string -> bool, bulkOk: bool) returns (ok: bool)
      requires Lists(all, rows)
      modifies this`rows, this`published
      ensures (ok, rows, published) == Finished(old(rows), old(published), starts, bulkOk)
    {
      var failed := StartActive(all, starts);
      if failed == {} {
        return true;
      }
      if !bulkOk {
        return false;
      }
      rows := Marked(rows, failed);
      published := published + 1;
      ok := true;
    }

    /** The second loop, over the active rows. */
    method StartActive(all: seq<string>, starts: string -> bool) returns (failed: set<string>)
      requires Lists(all, rows)
      ensures failed == Unstarted(rows, starts)
    {
      failed := {};
      for i := 0 to |all|
        invariant forall id :: id in failed <==> id in all[..i] && rows[id].status == Active && !starts(id)
      {
        assert all[..i + 1] == all[..i] + [all[i]];
        if rows[all[i]].status == Active && !starts(all[i]) {
          failed := failed + {all[i]};
        }
      }
      assert all[..|all|] == all;
    }
  }

  /** The proxy's domains after a deletion: without the entry, unless the row stayed and the proxy takes the
      listed routes back. */
  function EntriesAfter(addr: Host, domains: Domains, id: string, hostname: string, listed: seq<Route>,
                        deleted: bool): Domains {
    if deleted || !Allowed(addr, hostname, listed) then domains - {id}
    else (domains - {id})[id := DomainSnapshot(hostname, Stripped(listed))]
  }

  /** Deletion keeps the invariant of the service, whether the row goes or stays. */
  lemma SoundAfterDeletion(addr: Host, start: int, end: int, rows: Rows, domains: Domains, id: string,
                           listed: seq<Route>, deleted: bool)
    requires id in rows && ListedAs(listed, rows[id].routes)
    ensures StateSound(addr, start, end, rows, domains) ==>
              StateSound(addr, start, end, if deleted then rows - {id} else rows,
                         EntriesAfter(addr, domains, id, rows[id].hostname, listed, deleted))
  {
    if StateSound(addr, start, end, rows, domains) {
      if deleted {
        DeletionKeepsSound(addr, start, end, rows, domains, id);
      } else {
        var after := EntriesAfter(addr, domains, id, rows[id].hostname, listed, false);
        EntriesAfterFrame(addr, domains, id, rows[id].hostname, listed);
        RestoreKeepsSound(addr, start, end, rows, domains, after, id, listed);
      }
    }
  }

  lemma EntriesAfterFrame(addr: Host, domains: Domains, id: string, hostname: string, listed: seq<Route>)
    ensures var after := EntriesAfter(addr, domains, id, hostname, listed, false);
            && after - {id} == domains - {id}
            && (id in after ==> after[id] == DomainSnapshot(hostname, Stripped(listed)))
  {
  }

  /** A creation makes a tunnel of its own and no other. */
  lemma CreationBringsNothingBack(rows: Rows, w0: World, w: World, n: Names, stored: Option<Row>, o: CreateOutcomes)
    requires n.id !in rows && forall id :: id in rows ==> rows[id].tunnelId != n.tunnelId
    requires w.tunnels - {n.tunnelId} == w0.tunnels
    ensures GoneStaysGone(rows, w0.tunnels.Keys, RowsAfter(rows, n.id, stored, o), w.tunnels.Keys)
  {
    forall t | t in w.tunnels && t != n.tunnelId ensures t in w0.tunnels { assert t in w.tunnels - {n.tunnelId}; }
  }

  /** The row a creation stores fits the rows there are. */
  lemma CreatedIsStorable(addr: Host, start: int, end: int, rows: Rows, w0: World, w: World, n: Names,
                          hostname: string, zoneId: string, inputs: seq<RouteInput>, now: int, ids: nat -> string,
                          row: Row)
    requires forall id :: id in rows ==> rows[id].tunnelId != n.tunnelId && rows[id].hostname != hostname
    requires PortAlloc.IsFirstFree(start, end, set id | id in rows :: rows[id].port, Some(row.port))
    requires Built(addr, n, hostname, zoneId, inputs, now, ids, row, w0, w)
    ensures Storable(addr, start, end, rows, n.id, row)
  {
    assert Normalised(n.id, row.routes);
    DefaultIsRootOrigin(n.id, inputs, now, ids, row.origin);
    forall other | other in rows && other != n.id ensures Apart(rows[other], row) {
      assert rows[other].port in set id | id in rows :: rows[id].port;
    }
  }

  /** Creation keeps the invariant of the service. */
  lemma SoundAfterCreation(addr: Host, start: int, end: int, rows: Rows, w0: World, w: World, n: Names,
                           hostname: string, zoneId: string,
                           inputs: seq<RouteInput>, now: int, ids: nat -> string, row: Row, o: CreateOutcomes)
    requires n.id !in rows
    requires forall id :: id in rows ==> rows[id].tunnelId != n.tunnelId && rows[id].hostname != hostname
    requires PortAlloc.IsFirstFree(start, end, set id | id in rows :: rows[id].port, Some(row.port))
    requires Built(addr, n, hostname, zoneId, inputs, now, ids, row, w0, w)
    ensures StateSound(addr, start, end, rows, w0.domains) ==>
            StateSound(addr, start, end, RowsAfter(rows, n.id, Some(row), o), w.domains)
  {
    if StateSound(addr, start, end, rows, w0.domains) {
      CreatedIsStorable(addr, start, end, rows, w0, w, n, hostname, zoneId, inputs, now, ids, row);
      CreationKeepsSound(addr, start, end, rows, w0.domains, n.id, row);
      MarkingKeepsSound(addr, start, end, rows, n.id, row, o, w.domains);
    }
  }

  lemma MarkingKeepsSound(addr: Host, start: int, end: int, rows: Rows, id: string, row: Row, o: CreateOutcomes,
                          domains: Domains)
    requires StateSound(addr, start, end, rows[id := row], domains)
    ensures StateSound(addr, start, end, RowsAfter(rows, id, Some(row), o), domains)
  {
    var created, after := rows[id := row], RowsAfter(rows, id, Some(row), o);
    assert OnlyStatus(created, after) && SameHosts(created, after);
    StatusKeepsRows(addr, start, end, created, after);
    SameHostsKeepProxy(created, after, domains);
  }

  /** A created domain is reported pending if its process started and errored otherwise, and what is stored
      differs from that only if recording the failure failed. */
  lemma CreationStatus(addr: Host, n: Names, hostname: string, zoneId: string, inputs: seq<RouteInput>, now: int,
                       ids: nat -> string, w0: World, w: World, rows: Rows, row: Row, o: CreateOutcomes)
    requires Built(addr, n, hostname, zoneId, inputs, now, ids, row, w0, w)
    ensures Reported(Some(row), o) == Some(row.(status := if o.spawn then Pending else Errored))
    ensures var after := RowsAfter(rows, n.id, Some(row), o);
            && n.id in after && after - {n.id} == rows - {n.id}
            && after[n.id] == row.(status := if o.spawn || !o.markError then Pending else Errored)
  {
  }

  /** After a start-up whose bulk write worked exactly the active rows that did not start are errored; nothing
      else changes in any row. */
  lemma StartUpStatus(rows: Rows, notified: nat, starts: string -> bool, bulkOk: bool, id: string)
    requires id in rows
    ensures var after := Finished(rows, notified, starts, bulkOk);
            id in after.1 &&
            after.1[id] == if after.0 && rows[id].status == Active && !starts(id) then rows[id].(status := Errored)
                           else rows[id]
    ensures Finished(rows, notified, starts, bulkOk).0 <==>
            bulkOk || forall x :: x in rows && rows[x].status == Active ==> starts(x)
    ensures Finished(rows, notified, starts, bulkOk).2 == notified
            + if bulkOk && exists x :: x in rows && rows[x].status == Active && !starts(x) then 1 else 0
  {
    var failed := Unstarted(rows, starts);
    if x :| x in rows && rows[x].status == Active && !starts(x) { assert x in failed; }
    assert id in failed <==> rows[id].status == Active && !starts(id);
  }

  // ---- what creation may leave behind --------------------------------------------------------------

  /** Everything outside the database that belongs to domains. */
  datatype World = World(tunnels: map<string, seq<Rule>>, domains: Domains, records: set<string>)

  function UndoOne(w: World, u: Undo, o: CreateOutcomes): World {
    match u
    case DeleteTunnel(t) => if o.deleteTunnel then w.(tunnels := w.tunnels - {t}) else w
    case RemoveProxy(id) => w.(domains := w.domains - {id})
    case DeleteRecord(rec) => if o.deleteRecord then w.(records := w.records - {rec}) else w
  }

  /** Last pushed, first undone. */
  function Unwound(w: World, revert: seq<Undo>, o: CreateOutcomes): World
    decreases |revert|
  {
    if revert == [] then w
    else Unwound(UndoOne(w, revert[|revert| - 1], o), revert[..|revert| - 1], o)
  }

  function Reverts(n: Names): seq<Undo> {
    [DeleteTunnel(n.tunnelId), RemoveProxy(n.id), DeleteRecord(n.recordId)]
  }

  /** w is w0 with exactly the new domain's resources that revert has compensations for. */
  ghost predicate Grown(w0: World, w: World, n: Names, revert: seq<Undo>) {
    && revert <= Reverts(n)
    && w.tunnels - {n.tunnelId} == w0.tunnels && (n.tunnelId in w.tunnels <==> |revert| >= 1)
    && w.domains - {n.id} == w0.domains && (n.id in w.domains <==> |revert| >= 2)
    && w.records == w0.records + (if |revert| == 3 then {n.recordId} else {})
    && n.recordId !in w0.records
  }

  /** The resources after k compensable steps. */
  function GrownWorld(w0: World, n: Names, k: nat, rules: seq<Rule>, snap: DomainSnapshot): World {
    World(if k >= 1 then w0.tunnels[n.tunnelId := rules] else w0.tunnels,
          if k >= 2 then w0.domains[n.id := snap] else w0.domains,
          if k >= 3 then w0.records + {n.recordId} else w0.records)
  }

  /** New rules on the tunnel, and then the record. */
  lemma PublishedWorld(w0: World, n: Names, before: seq<Rule>, rules: seq<Rule>, snap: DomainSnapshot)
    ensures var w, after := GrownWorld(w0, n, 2, before, snap), GrownWorld(w0, n, 2, rules, snap);
            && w.(tunnels := w.tunnels[n.tunnelId := rules]) == after
            && after.(records := after.records + {n.recordId}) == GrownWorld(w0, n, 3, rules, snap)
  {
  }

  lemma GrownBy(w0: World, n: Names, k: nat, rules: seq<Rule>, snap: DomainSnapshot)
    requires n.id !in w0.domains && n.tunnelId !in w0.tunnels && n.recordId !in w0.records && k <= 3
    ensures Grown(w0, GrownWorld(w0, n, k, rules, snap), n, Reverts(n)[..k])
  {
    var w := GrownWorld(w0, n, k, rules, snap);
    assert w.tunnels - {n.tunnelId} == w0.tunnels;
    assert w.domains - {n.id} == w0.domains;
  }

  /** The row a creation stores, and the resources it leaves in place: tunnel with its rules, proxy entry,
      DNS record. */
  ghost predicate Built(addr: Host, n: Names, hostname: string, zoneId: string, inputs: seq<RouteInput>, now: int,
                        ids: nat -> string, row: Row, w0: World, w: World)
  {
    && w == GrownWorld(w0, n, 3, Rules(addr, row.routes), DomainSnapshot(hostname, Stripped(row.routes)))
    && Accepted(inputs, false) && row.routes == NormalRoutes(n.id, inputs, now, false, ids)
    && Allowed(addr, hostname, row.routes)
    && HasRoot(inputs, false, row.origin)
    && row == Row(hostname, zoneId, n.tunnelId, n.recordId, row.origin, Pending, row.port, row.routes, now)
  }

  /** All that a failed creation can leave behind: the tunnel or the record whose own delete failed. */
  ghost predicate Leftover(w0: World, w: World, n: Names, o: CreateOutcomes) {
    && w.domains == w0.domains
    && w.tunnels - {n.tunnelId} == w0.tunnels && (o.deleteTunnel ==> w.tunnels == w0.tunnels)
    && w.records - {n.recordId} == w0.records && (o.deleteRecord ==> w.records == w0.records)
  }

  /** Running the stack backwards restores what was there, whichever step failed. */
  lemma UnwoundLeftover(w0: World, w: World, n: Names, revert: seq<Undo>, o: CreateOutcomes)
    requires Grown(w0, w, n, revert)
    ensures Leftover(w0, Unwound(w, revert, o), n, o)
  {
    UnwoundShape(w, n, revert, o);
  }

  lemma UnwoundShape(w: World, n: Names, revert: seq<Undo>, o: CreateOutcomes)
    requires revert <= Reverts(n)
    ensures Unwound(w, revert, o) == World(
              if |revert| >= 1 && o.deleteTunnel then w.tunnels - {n.tunnelId} else w.tunnels,
              if |revert| >= 2 then w.domains - {n.id} else w.domains,
              if |revert| == 3 && o.deleteRecord then w.records - {n.recordId} else w.records)
  {
    var w1 := if |revert| == 3 then UndoOne(w, DeleteRecord(n.recordId), o) else w;
    var w2 := if |revert| >= 2 then UndoOne(w1, RemoveProxy(n.id), o) else w1;
    if |revert| == 3 {
      assert revert[2] == DeleteRecord(n.recordId);
      assert revert[..2][1] == RemoveProxy(n.id) && revert[..2][..1] == revert[..1];
    }
    if |revert| >= 2 {
      assert revert[1] == RemoveProxy(n.id);
      assert Unwound(w1, revert[..2], o) == Unwound(w2, revert[..1], o);
    }
    if |revert| >= 1 {
      assert revert[0] == DeleteTunnel(n.tunnelId) && revert[..1][..0] == [];
      assert Unwound(w2, revert[..1], o) == UndoOne(w2, DeleteTunnel(n.tunnelId), o);
      assert revert[..|revert|] == revert;
    }
  }
}
