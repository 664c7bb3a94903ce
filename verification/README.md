# Tunnel manager: routes, processes and streams, verified

The tunnel manager keeps three views of a domain's routes in step: the ingress rules of a Cloudflare
tunnel, the rows in SQLite, and the index of a loopback proxy that strips path prefixes. Beside that it
supervises one `cloudflared` child per domain and streams changes to browsers. This project models
those parts in Dafny and proves what they promise, for every input, every failure pattern and every
interleaving.

`dafny verify dfyconfig.toml` checks everything.

## What is modelled

- **From a raw path to an origin** (`RoutePath`, `Routes`, `InputRules`, `PathOrder`, `Utf8`, `PathRegex`,
  `PatternSyntax`, `Dispatch`): the normaliser with its loops, which inputs it takes in the words of its contract,
  the two sort orders, the text `^literal(/.*)?$` parsed into a small
  regular-expression syntax tree with a match relation, Cloudflare's first matching rule, and the
  proxy's second match. The reference is one sentence: the longest route path that is the request path
  or ends at one of its slashes; the root takes the rest.
- **The loopback proxy** (`IngressProxy`, `ProxyLaws`): the class that replaces and removes domains and
  rebuilds its index after each change.
- **Replacing routes** (`SagaSpec`, `SagaLaws`, `ServiceState`, `DomainService`, `Drift`): prepare, remote put,
  transaction, commit, with their compensations. The method carries a ghost trace of the three views after every
  effect; the trace equals the specification `SagaViews`, about which safety is proved.
- **The life of a domain** (`DomainService`, `ReadBack`, `StartUp`): creation with its stack of
  compensations, deletion, the deprecated origin update, and start-up reconciliation. Every one of these
  methods keeps one invariant (`ServiceState.StateSound`): each row's routes came through the normaliser and
  are such as the proxy takes, its origin column shows the root's origin, no two rows share hostname, tunnel or port, ports are in range, and each proxy
  entry belongs to a row. The theorems about start-up and about delivery start from it.
- **The keyed lock** (`KeyedLock`), **the process supervisor** (`Supervisor`, `SupervisorRuns`,
  `SupervisorExamples`) and **change notification** (`Notify`): step machines over unboundedly many
  threads, incarnations, writers and readers. One step is one critical section or one external call.
- **The log ring** (`LogBuffer`), **pagination** (`Pagination`) and **metrics ports** (`PortAlloc`).

## What is assumed

- A string is a sequence of Unicode code points; `ByteLen` is Go's `len`, the number of elements is
  SQLite's `LENGTH`. Raw text that is not UTF-8 is the value `Malformed`. That Go's comparison of
  bytes is the comparison of code points is proved (`Utf8.BeforeOnBytes`).
- Cloudflare and the proxy match the same decoded request path. `cloudflared` evaluates rules in order,
  with Go's regular-expression semantics in which `.` does not match a newline.
- A parsed URL is a record; parsing and printing are inverse. Hostnames arrive already in the form that
  `normalizeHostname` gives.
- A failed external call has no effect. Whether each call succeeds is a parameter, as are UUIDs, clock
  readings and the names Cloudflare returns. Creating a tunnel is one call.
- `sort.Slice` is its result: on distinct keys only one sorted permutation exists (`SortedUnique`). The
  SQL `ORDER BY` clauses are taken by their meaning, `LIKE` is an arbitrary relation.
- Whether a direct origin reaches the proxy's own address is decided by `SameEndpoint`, the same test
  the proxy applies to stripped routes.

## Where the code does not do what its design says

The model follows the code (design:
`docs/superpowers/specs/2026-08-29-domain-multi-path-ingress-design.md`).

- The raw path `//` is accepted and stored as the empty path, and `/a /` as `/a ` with a trailing space.
  The stored form is a fixed point exactly when it is not empty and does not end in a space
  (`NormalizedIsCanonicalIff`). The empty path sorts after the root and is never chosen
  (`EmptyPathIsDead`).
- Such a set is accepted but may not be taken back: start-up succeeds exactly when no domain has an
  empty path or two paths that read alike (`StartUpSucceedsIff`), and one such domain keeps the whole
  service from starting. `/` beside `//`, and `/` beside `/ /`, are two ways to get there
  (`AcceptedButNotTakenBack`).
- A restart can also succeed and silently break a domain. Reconcile registers each stripped path as it is
  read, while the remote keeps the old spelling: the domain is served as before exactly if every stripped
  path is canonical (`RestartRestoresTheProxy`; a direct route's path does no harm). Otherwise a request that
  worked is lost (`RestartLoses`). A raw `/a /` with prefix stripping, beside the root, works until the first
  restart and answers 404 after it (`RestartBreaksSpacedPath`).
- `UpdateOrigin` sends the stored set through the normaliser again. `RootUpdateTakenIff` says when that is
  taken. When it is, the other routes keep their paths exactly if every stored path is canonical
  (`RootUpdateKeepsPathsIff`); a stored `/a ` silently becomes `/a` (`RootUpdateRenamesPath`).
- A request path that contains a newline matches no compiled pattern, not even that of its own route;
  the root gets it (`DispatchIsExact`, with an input in `NewlineGoesToTheRoot`).
- The self-loop check looks only at stripped routes. A direct route whose origin is the proxy is
  accepted; its requests come back to the proxy and are answered by whatever stripped route matches there, or
  by 404 (`ChosenDelivers`; for a lone root `DirectLoopIsNotFound`).
- After a failed store and a failed remote rollback the remote serves the new routes under the transition
  snapshot (`HalfUndone`). Everything that rebuilds the proxy's entry from SQLite can then take the cover away
  from routes that are still active: a second replacement, a deletion whose row stays, a restart. The exact
  conditions are `SecondAttemptCoversIff`, `DeletionCoversIff` and `RestartCoversIff`; `DriftLosesCover` gets
  there from a fresh domain; that requests are then lost is `UncoveredIsLost`.
- A deletion whose row could not be removed may have removed the tunnel. No method brings it back
  (`GoneStaysGone`), so no later replacement of that domain succeeds: it is refused by the proxy or fails at
  the remote put (`ReachingSucceedsIff`).
- The design asks for a log line when the remote rollback fails; the code returns the persist error and
  drops the other (`SagaResult.PersistFailed` keeps the distinction for the proofs only).
- `Stop` may return and one more child may still be started, never two (`StartAfterStop`,
  `AtMostOneStartAfterStop`): exactly when Stop came between a reading of the flag and the next start, the
  limit was not used up, and that start works (`StartAfterStopIff`). Stop has not signalled that child, nor one
  that was started before and not yet published (`StopSignalsIff`), so it runs until it exits by itself. A Stop that comes after the last
  reading of the flag meets the error exit (`StopMeetsError`); `StopDecides` gives the exact outcome for every
  moment. The `Stopped` event of an old incarnation can follow the `Active` event of
  its successor (`StaleStopped`).
- A cursor that does not decode drops the page limit too: the whole filtered list is returned
  (`GarbledCursorListsAll`).

## Model

| member | source | states |
|---|---|---|
| PathOrder.BeforeStrictTotal | internal/services/domain/routes.go:70-75 | the sort comparator is a strict total order on distinct paths |
| PathOrder.GoOrderPutsLongerFirst | internal/services/domain/routes.go:70-75 | in Go's order no path comes before a longer path it is a prefix of |
| PathOrder.SqlOrderPutsLongerFirst | internal/pkg/repo/domain/routes.go:12-22 | the same for SQLite's order by number of characters |
| PathOrder.OrdersDiffer | internal/pkg/repo/domain/routes.go:16-17 | the two orders are not the same order: a concrete pair |
| PathOrder.LexByFirstDifference | internal/services/domain/routes.go:74 | at the first difference the smaller character comes first, and a text before its extensions |
| PathOrder.BeforeByLength | internal/services/domain/routes.go:70-75 | more bytes come first, then the smaller text; for SQLite more characters, then the smaller text |
| Utf8.ByteLenIsEncoded | internal/services/domain/routes.go:71-72 | the length that is compared is that of the UTF-8 encoding |
| Utf8.ByteOrderIsCodePointOrder | internal/services/domain/routes.go:74 | comparing the encodings byte by byte is comparing the characters |
| Utf8.BeforeOnBytes | internal/services/domain/routes.go:70-75 | the comparator is the one Go computes on the encoded paths |
| PathOrder.SortedUnique | internal/services/domain/routes.go:70-75 | two sorted lists of the same distinct-keyed elements are equal, so the sort's result is determined |
| RoutePath.NormalizedIsWellShaped | internal/services/domain/routes.go:98-115 | an accepted path starts with a slash or is empty, ends in none unless it is the root, has no query, fragment or control character, at most 256 bytes |
| RoutePath.NormalizedIsCanonicalIff | internal/services/domain/routes.go:98-115 | the normalised path is a fixed point exactly when it is not empty and does not end in a space |
| RoutePath.DoubleSlashIsNotCanonical | internal/services/domain/routes.go:111-113 | `//` is accepted as the empty path, which is then refused |
| RoutePath.InnerSpaceIsNotCanonical | internal/services/domain/routes.go:98-115 | `/a /` becomes `/a `, which becomes `/a` |
| RoutePath.NormalizedOriginIsFixed | internal/services/domain/routes.go:117-133 | a normalised origin is a fixed point, also under the laxer rule for stored routes |
| Routes.AcceptedMeans | internal/services/domain/routes.go:29-68 | the loop's incremental checks succeed exactly on 1 to 50 individually valid inputs with distinct normalised paths and a root |
| Routes.CheckInput | internal/services/domain/routes.go:38-52 | the checks of one input in their order: the core it yields, or the error of the first check that fails, a duplicate path before the strip and origin checks; which inputs pass is `InputRules.AcceptedIffGood` |
| Routes.NormalizeRoutesWithLegacyPaths | internal/services/domain/routes.go:29-77 | succeeds exactly on accepted sets, then returns the sorted draft and the root's origin |
| Routes.NormalizeRoutes | internal/services/domain/routes.go:25-27 | the strict form, without direct origin paths: it succeeds exactly on accepted sets, which `InputRules.AcceptedIffGood` spells out |
| Routes.RouteInputs | internal/services/domain/routes.go:151-161 | stored routes as inputs |
| Routes.CollectMetadata | internal/services/domain/routes.go:84-87 | the loop builds the metadata map |
| Routes.MetadataIsLast | internal/services/domain/routes.go:84-87 | which finds the last stored route of each path |
| Routes.NormalizePersistedRoutes | internal/services/domain/routes.go:79-96 | succeeds exactly when the stored set is accepted under the lax rule; identity and timestamps come from the stored routes |
| RouteLaws.NormalisationIsOrderFree | internal/services/domain/routes.go:29-77 | acceptance and the resulting paths, origins and flags depend only on the multiset of inputs |
| InputRules.AcceptedIffGood | internal/services/domain/routes.go:29-68 | a set is taken exactly if it has 1 to 50 inputs, each with a readable path, a root that does not strip, and an http or https origin with a host, no user, query or fragment, and no path but a slash (a stored direct route may have one), on distinct paths with a root among them |
| InputRules.AcceptedOrigins | internal/services/domain/routes.go:117-133 | every stored origin is such a URL, its path is empty or a legacy one, and it is the origin that was sent up to a lone slash |
| InputRules.GoodInputIsStored | internal/services/domain/routes.go:47-64 | every input of a taken set is stored with its path, origin, flag, domain and the current time |
| InputRules.SpecificPathIsTaken | internal/services/domain/routes.go:98-115 | a clean path of at most 256 bytes, with blanks around it and slashes behind it, is taken and stored without them |
| InputRules.SlashPathIsTaken | internal/services/domain/routes.go:98-115 | one slash between blanks is the root, more are the empty path |
| InputRules.TakenPathReads | internal/services/domain/routes.go:98-115 | and nothing else is taken: every taken text is blanks, such a path or slashes, and blanks |
| InputRules.RouteIdsAreDistinct | internal/services/domain/routes.go:56-57 | with distinct UUIDs the stored routes have distinct ids |
| RouteLaws.NormalRoutesAreValid | internal/services/domain/routes.go:29-77 | an accepted set becomes 1 to 50 sorted routes on distinct well-shaped paths, with one root that does not strip |
| RouteLaws.PersistedRoutesAreRestored | internal/services/domain/routes.go:79-96 | a stable stored set is read back with its original ids and timestamps, sorted, from rows in any order |
| RouteLaws.StoredSetSurvivesIff | internal/services/domain/routes.go:79-115 | a set the service accepted and stored is read back unchanged exactly when no path is empty or ends in a space |
| RouteLaws.StableIffCanonical | internal/services/domain/routes.go:98-133 | a normalised route comes back as itself exactly when its path is canonical |
| RouteLaws.RootReplaced | internal/services/domain/update.go:23-28 | the loop puts the new origin on the root input and leaves the others |
| ReadBack.StoredPathReads | internal/services/domain/routes.go:98-115 | the only stored path the normaliser refuses is the empty one; any other is read as its trimmed form |
| ReadBack.StoredSetIsTakenBackIff | internal/services/domain/routes.go:79-83 | a set the service stored is accepted again exactly when no path is empty and no two paths are read as the same |
| ReadBack.RootUpdateTakenIff | internal/services/domain/update.go:19-32 | on any stored list, in any listing order, the origin update is taken exactly when the new origin is plain, every other route has an origin without a path, no path is empty and no two paths are read as the same |
| ReadBack.RootUpdateStores | internal/services/domain/update.go:23-33 | a taken update stores every route as it is read, the root with the new origin, in Go's order |
| ReadBack.RootUpdateChangesOnlyTheRoot | internal/services/domain/update.go:23-33 | on a canonical list, in any listing order, the update changes the root's origin only |
| ReadBack.RootUpdateKeepsPathsIff | internal/services/domain/update.go:23-33 | the update keeps the set of paths exactly when every stored path is canonical |
| ReadBack.RootUpdateRenamesPath | internal/services/domain/update.go:23-33 | a stored set on which the update is taken and renames a path |
| PatternSyntax.PatternCompiles | internal/services/domain/routes.go:138-141 | for every path, the quoted text parses as: start, the literal characters, the optional tail, end |
| PathRegex.PatternMatches | internal/services/domain/routes.go:138-141 | the pattern matches exactly the path itself and what follows it after a slash without a newline |
| Dispatch.CloudflareRules | internal/services/domain/routes.go:135-149 | one rule per route in order: no pattern for the root, the proxy's address for stripped routes |
| Dispatch.LoopsBackIff | internal/pkg/ingressproxy/proxy.go:198-212 | an origin names the proxy exactly if it has the proxy's port and is localhost, 127.x.y.z or ::1 |
| Dispatch.StripKeepsTheRest | internal/pkg/ingressproxy/proxy.go:166-169 | after a match the forwarded path starts with a slash and, put behind the prefix, gives the request path back |
| Dispatch.FirstIsLongest | internal/services/domain/routes.go:70-75 | in any order that puts longer paths first, with the root accepting everything, the first accepting route is the longest |
| Dispatch.OrderDoesNotMatter | internal/services/domain/update.go:67 | any two such orders of the same routes choose the same route on every path, so a rollback compiled from SQLite's order routes as before |
| Dispatch.ProxyFindsTheLongest | internal/pkg/ingressproxy/proxy.go:159-189 | if the longest accepting route is a stripped one, the proxy's own scan of the stripped routes finds that route |
| Dispatch.DispatchIsExact | internal/services/domain/routes.go:135-149 | rules, then index, then stripping deliver as the one-sentence reference says, exactly when a condition on the chosen route, the root and the path holds |
| Dispatch.DispatchIsLongestPrefix | internal/pkg/ingressproxy/proxy.go:159-189 | for every newline-free path, if no direct origin is the proxy: the longest route whose path is the root, the request path or a prefix of it up to a slash gets the request at its origin; a direct one with the path as it came, a stripping one with its own path taken off the front and named as prefix; never a 404 |
| Dispatch.NewlineGoesToTheRoot | internal/services/domain/routes.go:138-141 | a request for `/a/` and a newline belongs to `/a` and is delivered to the root |
| ProxyLaws.DirectLoopIsNotFound | internal/pkg/ingressproxy/proxy.go:111-121 | a root whose origin is the proxy passes the normaliser and the proxy's check, and its requests are not found |
| ProxyLaws.AllowedIff | internal/pkg/ingressproxy/proxy.go:105-121 | the proxy takes a set exactly if there is a host name and every stripped origin has a scheme and a host and does not name the proxy's port on this machine |
| ProxyLaws.RunKeepsAllowed | internal/pkg/ingressproxy/proxy.go:105-130 | after any run of operations every entry holds stripped routes the proxy takes |
| ProxyLaws.ProxyNeverLoops | internal/pkg/ingressproxy/proxy.go:159-185 | what the proxy forwards never comes back to it, and the prefix it names followed by the path it forwards is the request path |
| IngressProxy.ProxyServer.constructor | internal/pkg/ingressproxy/proxy.go:41-49 | an empty proxy with an empty index |
| IngressProxy.ProxyServer.PrepareDomain | internal/pkg/ingressproxy/proxy.go:70-88 | accepted exactly when the merged set is allowed; then exactly this domain's entry is the merged set and the index fits |
| IngressProxy.ProxyServer.MergeRoutes | internal/pkg/ingressproxy/proxy.go:71-86 | new stripped routes first, then old ones on other paths |
| IngressProxy.ProxyServer.CommitDomain | internal/pkg/ingressproxy/proxy.go:90-92 | accepted exactly when every stripped origin is allowed; a refusal changes nothing |
| IngressProxy.ProxyServer.RollbackDomain | internal/pkg/ingressproxy/proxy.go:94-96 | the same for the old routes |
| IngressProxy.ProxyServer.RemoveDomain | internal/pkg/ingressproxy/proxy.go:98-103 | exactly this entry goes, and the index fits again |
| IngressProxy.ProxyServer.ReplaceDomain | internal/pkg/ingressproxy/proxy.go:105-130 | the validation loop, the new entry and the rebuilt index |
| IngressProxy.ProxyServer.FilterRoutes | internal/pkg/ingressproxy/proxy.go:110-123 | succeeds exactly when every stripped origin is absolute and not the proxy; keeps the stripped routes in order |
| IngressProxy.ProxyServer.RebuildLocked | internal/pkg/ingressproxy/proxy.go:132-157 | each host's list is sorted and holds the routes of its domains, each as often as they do, whatever order the map is walked in |
| IngressProxy.ProxyServer.SortHosts | internal/pkg/ingressproxy/proxy.go:148-155 | every host's list is sorted and keeps its elements |
| IngressProxy.ProxyServer.ServeHTTP | internal/pkg/ingressproxy/proxy.go:159-185 | the loop delivers by the first matching entry, or answers 404 |
| ProxyLaws.LookupIsLongest | internal/pkg/ingressproxy/proxy.go:132-168 | lookup in the rebuilt index is a longest match over everything registered for the host |
| ProxyLaws.OwnIndex | internal/pkg/ingressproxy/proxy.go:132-157 | with distinct hostnames a domain's list is the sort of its own routes |
| ProxyLaws.CommittedIndex | internal/pkg/ingressproxy/proxy.go:90-92 | after a commit the index is what the dispatch theorem asks for |
| ProxyLaws.ValidRoutesDispatch | internal/services/domain/routes.go:70-76 | every normalised set satisfies the dispatch theorem's conditions |
| ProxyLaws.ListedIsRouteSet | internal/pkg/repo/domain/routes.go:12-22 | SQLite's listing of a route set is the same set, in an order that may be compiled as it stands |
| ProxyLaws.ListedDeliversAlike | internal/services/domain/update.go:67 | the rules compiled from that listing deliver every request as the normalised list does, newline or not |
| ProxyLaws.EmptyPathIsDead | internal/services/domain/routes.go:70-75 | a route on the empty path is never chosen |
| ProxyLaws.DomainsAreIndependent | internal/pkg/ingressproxy/proxy.go:98-130 | after any run of operations a domain's entry depends on that domain's operations only |
| ProxyLaws.LookupIsIndependent | internal/pkg/ingressproxy/proxy.go:159-168 | a request is answered as if only its own domain's operations had happened |
| SagaLaws.SagaCovered | internal/services/domain/update.go:57-83 | from agreement, at every step and for every failure pattern, each stripped path of the active remote set is in the proxy |
| SagaLaws.SagaCoversStored | internal/services/domain/update.go:57-83 | at every step each stored stripped path is in the proxy, so the old routes go only after the transaction |
| SagaLaws.ViewsChangeSingly | internal/services/domain/update.go:57-83 | the recorded views start at the current one and differ one list at a time, so no effect goes unrecorded |
| SagaLaws.SagaServesEveryRequest | internal/services/domain/update.go:57-83 | at every step, for every request path, newlines included, the request is delivered by a route of the old or the new set, never a less specific one than the active rules chose; if the chosen route is a direct one back to the proxy, the proxy's own lookup answers instead |
| SagaLaws.AttemptServesEveryRequest | internal/services/domain/update.go:36-83 | the same for a replacement as the service makes it: the old set is SQLite's listing of the stored routes, the new one is normalised, the views were in step |
| SagaLaws.TransitionPrefersNew | internal/pkg/ingressproxy/proxy.go:70-88 | the transition snapshot serves the longest stripped match of old and new together, the new route on equal paths |
| SagaLaws.MergedAllowed | internal/pkg/ingressproxy/proxy.go:70-88 | if the merged set is allowed, so is the new set |
| SagaLaws.CommitIsNeverRefused | internal/services/domain/update.go:73-75 | the commit cannot fail once prepare succeeded |
| SagaLaws.SuccessConverges | internal/services/domain/update.go:57-83 | from any start, drifted or not, success brings all three views to the new set; it happens exactly when the merged set is allowed and both calls succeed |
| SagaLaws.FailureKeepsAgreement | internal/services/domain/update.go:62-72 | after a failure the rows are old and either remote and proxy are old too, or the remote is new under the transition snapshot |
| SagaLaws.DriftedCoverIff | internal/services/domain/update.go:50-72 | from a drifted remote, cover is kept throughout exactly when the drifted stripped paths occur in the stored set, or, if the put goes through, in stored and new together |
| Drift.HalfUndone | internal/services/domain/update.go:66-72 | after a failed store and a failed undo the remote is new, the rows old, and the transition set covers the remote |
| Drift.SecondAttemptCoversIff | internal/services/domain/update.go:50-72 | the next attempt keeps the first one's routes covered throughout exactly if their stripped paths are stored or, if its put works, among its own |
| Drift.DeletionCoversIff | internal/services/domain/delete.go:34-38 | the entry put back by a deletion whose row stays covers what the remote serves exactly if the stored set has its stripped paths |
| Drift.DriftLosesCover | internal/services/domain/update.go:57-83 | from a fresh domain, an attempt whose store and undo fail leads to a covered state in which a second attempt, a restart and a failed deletion each lose the cover |
| SagaLaws.UncoveredIsLost | internal/services/domain/update.go:50-72 | the path of an uncovered route is sent to the proxy and not delivered as the route says |
| SagaLaws.RunKeepsStoredOk | internal/services/domain/update.go:63-69 | over any run of replacements the stored set stays acceptable to the proxy, so the rollbacks whose errors are dropped never fail |
| SagaLaws.RunAgrees | internal/services/domain/update.go:57-83 | a run in which every undo works ends with the views in step on the routes of its last success |
| SagaLaws.CreatedInStep | internal/services/domain/create.go:54-61 | the views that a creation leaves are in step |
| DomainService.Service.Put | internal/pkg/cloudflare/client.go:83-112 | an empty rule list is refused; otherwise the tunnel's rules are replaced or nothing happens |
| DomainService.Service.Persist | internal/pkg/repo/domain/routes.go:45-72 | origin, timestamp and the whole list change together, or nothing; a missing row is an error |
| DomainService.Service.ReplaceRoutesLocked | internal/services/domain/update.go:57-83 | the three views pass through exactly SagaViews and end in SagaEnd; one notification exactly on success; other domains and tunnels untouched |
| DomainService.Service.UndoRemote | internal/services/domain/update.go:66-72 | the remote is restored first, and the proxy only if that worked |
| DomainService.Service.ReplaceRoutes | internal/services/domain/update.go:36-55 | invalid inputs, failed reads and a missing row change nothing; otherwise the views pass through exactly the saga's; it succeeds exactly when the inputs are accepted, the row and its tunnel are there, the merged set is allowed and both calls work; the row's other fields, the other rows, entries and tunnels stay; the invariant is kept |
| DomainService.Service.UpdateOrigin | internal/services/domain/update.go:11-34 | the saga on the stored set with the root's origin replaced, with the same success condition, frame, notification count and invariant |
| DomainService.Service.CreateDomain | internal/services/domain/create.go:15-112 | succeeds exactly when every step would; then tunnel, rules, proxy entry, record and row are there, the row with the root's origin, the zone, the first free port and the current time; otherwise only what a failed compensating delete left behind; a failed start keeps everything and marks the row; the invariant is kept |
| DomainService.CreationStatus | internal/services/domain/create.go:96-111 | the domain is returned pending, or errored if its process did not start; the stored row differs from that only if the status write failed |
| DomainService.Service.Provision | internal/services/domain/create.go:45-69 | after k compensable steps exactly those k resources exist and the stack holds their compensations |
| DomainService.Service.Store | internal/services/domain/create.go:71-102 | the row is stored with the first free port, or nothing changes |
| DomainService.Service.Unwind | internal/services/domain/create.go:16-23 | the deferred loop runs the compensations last pushed first |
| DomainService.UnwoundLeftover | internal/services/domain/create.go:16-23 | whichever step failed, unwinding restores tunnels, proxy entries and records, except for a delete that fails itself |
| DomainService.Service.DeleteDomain | internal/services/domain/delete.go:11-49 | what is removed and what is put back in each outcome, failed reads included; the invariant is kept |
| Drift.RestoredServesAsBeforeIff | internal/services/domain/delete.go:34-38 | when the row could not be deleted, the domain is served from the same index as before exactly if the entry taken out agreed with the row |
| DomainService.Service.Reconcile | internal/services/domain/service.go:206-261 | fails if the rows cannot be listed; refused exactly when some row cannot be loaded, with the proxy filled up to that row; otherwise the proxy holds every row and exactly the active rows that did not start are marked; the invariant is kept |
| DomainService.Service.Hydrate | internal/services/domain/service.go:220-232 | the loop stops at the first row that cannot be loaded |
| DomainService.StartUpStatus | internal/services/domain/service.go:234-261 | exactly the active rows that did not start are errored, by one write and one notification, nothing else changes in any row; start-up fails exactly when there are some and the write fails |
| ServiceState.ReachingSucceedsIff | internal/services/domain/update.go:57-83 | a replacement succeeds exactly when the tunnel is there, the merged set is allowed and the put and the transaction work |
| ServiceState.DefaultIsRootOrigin | internal/services/domain/routes.go:53-55 | the default origin is the origin of the root among the stored routes |
| ServiceState.RootOriginIsUnique | internal/services/domain/create.go:88 | a sound row has no other origin to show |
| DomainService.CreationBringsNothingBack | internal/services/domain/create.go:45-52 | a creation makes its own tunnel and brings no other row's tunnel back |
| ServiceState.SoundAfterReplacing | internal/services/domain/update.go:57-83 | however a replacement ends, rows stay normalised, allowed and apart, and proxy entries belong to rows |
| DomainService.SoundAfterCreation | internal/services/domain/create.go:34-102 | a stored creation keeps that invariant: its hostname, tunnel and port are new |
| DomainService.SoundAfterDeletion | internal/services/domain/delete.go:34-38 | so does a deletion, whether the row goes or stays |
| ServiceState.SoundHostsDistinct | internal/pkg/ingressproxy/proxy.go:132-147 | under the invariant no two proxy entries share a host |
| ServiceState.SoundPorts | internal/services/domain/create.go:76-102 | under the invariant ports are in range and pairwise distinct |
| StartUp.RestartRestoresTheProxy | internal/services/domain/service.go:206-232 | a restart that succeeds brings every domain back, and a host whose entry agreed with its row is served from the same index as before exactly if every stripped path is canonical |
| StartUp.RestartCoversIff | internal/services/domain/service.go:220-232 | a restart covers what the remote serves exactly if its stripped paths are read from stored ones |
| StartUp.OwnCoverIff | internal/services/domain/service.go:220-232 | a row's own routes stay covered exactly if every stripped path is canonical |
| StartUp.SameIndexAfterRestartIff | internal/services/domain/service.go:220-232 | a row is served from the same index exactly if every stripped path is canonical |
| StartUp.RestartLoses | internal/services/domain/service.go:220-232 | if not, some stripped route's own path was delivered before the restart and is not after it |
| StartUp.RestartBreaksSpacedPath | internal/services/domain/service.go:220-232 | an accepted set that a restart takes and after which a request that worked ends in 404 |
| StartUp.CanonicalStartsUp | internal/services/domain/service.go:220-228 | canonical paths never keep the service from starting |
| StartUp.StartUpSucceedsIff | internal/services/domain/service.go:220-228 | start-up of a sound service succeeds exactly when no domain has an empty path or two paths read as the same |
| StartUp.AcceptedButNotTakenBack | internal/services/domain/routes.go:98-115 | two accepted sets that no later start-up takes |
| PortAlloc.Allocate | internal/pkg/portalloc/portalloc.go:16-24 | the first free port of the range, or none if all are taken |
| PortAlloc.FirstFreeIsUnique | internal/pkg/portalloc/portalloc.go:16-24 | that answer is determined |
| PortAlloc.ListTakenPorts | internal/pkg/repo/domain/list.go:58-69 | exactly the ports of the rows |
| PortAlloc.RunKeepsPortsOk | internal/services/domain/create.go:76-102 | along any sequential run of creations and deletions ports stay in range and pairwise distinct |
| PortAlloc.CreationSucceeds | internal/services/domain/create.go:76-102 | along any such run allocation succeeds whenever there are fewer rows than ports |
| KeyedLock.MutualExclusion | internal/services/domain/service.go:111-131 | in every reachable state at most one thread is in the critical section of an id |
| KeyedLock.OneObjectPerId | internal/services/domain/service.go:111-131 | all threads of an id use the one object in the map and its count is their number |
| KeyedLock.DeletedWhenUnused | internal/services/domain/service.go:120-130 | an entry is deleted only when no thread points at it |
| KeyedLock.EmptyAtQuiescence | internal/services/domain/service.go:120-130 | with every thread idle the map is empty |
| KeyedLock.NoDeadlock | internal/services/domain/service.go:111-131 | while a thread is inside, some thread can step |
| KeyedLock.OnlyItsOwnIdBlocks | internal/services/domain/service.go:111-131 | a thread waits for an entry's mutex exactly while another is in the critical section of the same id |
| KeyedLock.EveryCallIsServed | internal/services/domain/service.go:111-131 | a thread has entered the critical section of an id as often as it called for it, one call possibly still under way |
| KeyedLock.StepsAreBounded | internal/services/domain/service.go:111-131 | a thread has taken eight steps for each of its calls exactly if it is idle, and never more |
| SupervisorRuns.OneLiveChildPerDomain | internal/pkg/process/supervisor.go:31-71 | in every interleaving two live children of one domain are the same child, and it is registered |
| SupervisorRuns.DeletesOwnEntry | internal/pkg/process/helper.go:56-59 | an incarnation deletes only its own entry |
| SupervisorRuns.FinishedTraces | internal/pkg/process/helper.go:45-91 | the exact events of a finished incarnation: none, Stopped alone, or Active with count 0, one Active with its attempt for each restart that worked, and then Stopped or Error with count 5 |
| SupervisorRuns.ActivesCarryTheirAttempts | internal/pkg/process/helper.go:77-89 | at every moment the Actives after the first carry the attempts of the restarts that worked, in order; each restart came right after a back-off of 2^(attempt-1) seconds; without a reset the attempts go up |
| SupervisorRuns.BackoffsAndTimers | internal/pkg/process/helper.go:45-91 | every back-off is followed by one cmd.Start; a child is announced under a stable timer of its own, which is off once its exit has been handled |
| SupervisorRuns.EveryFiringResets | internal/pkg/process/helper.go:30-42 | each firing of a stable timer owes one reset of the count to zero, which nothing can block, and each child's timer fires at most once |
| SupervisorRuns.TerminalEventsComeAfterRemoval | internal/pkg/process/helper.go:56-75 | while the entry is registered only Active events exist, the first with count 0 and the others not |
| Supervisor.TotalBackoffIs | internal/pkg/process/helper.go:77-78 | for any limit n the back-offs of n restarts sum to 2^n-1 seconds |
| SupervisorRuns.RestartsAreBounded | internal/pkg/process/helper.go:64-78 | at most 5 back-offs and 31 seconds per stable period; an unreset run that errs out slept exactly 31 |
| SupervisorRuns.StepsAreBounded | internal/pkg/process/helper.go:45-91 | an incarnation takes boundedly many steps per reset |
| SupervisorRuns.OnlyTheChildHoldsItUp | internal/pkg/process/helper.go:46-47 | an unfinished incarnation can always step unless it waits for a live child |
| SupervisorRuns.AtMostOneStartAfterStop | internal/pkg/process/helper.go:53-81 | after Stop has set the flag at most one more child is started |
| SupervisorRuns.StartAfterStopIff | internal/pkg/process/helper.go:53-83 | a child is started after Stop exactly if Stop came between a reading of the flag and the next cmd.Start, the limit was not used up, and that call worked; after any other Stop cmd.Start is not called again |
| SupervisorRuns.StopSignalsIff | internal/pkg/process/supervisor.go:81-93 | the child that runs after a Stop is the one that Stop signalled, unless it was started after Stop or was not yet published as mp.cmd |
| SupervisorRuns.StopDecides | internal/pkg/process/helper.go:53-75 | how every finished run ended, by the moment of the first Stop: Error exactly if it came too late, failed or killed at birth exactly if it met the first Start, otherwise Stopped; without a Stop, failed or Error |
| SupervisorRuns.OldIncarnationsOnlyFinish | internal/pkg/process/helper.go:56-75 | once a successor is registered the old incarnation neither starts a child nor touches the map |
| SupervisorRuns.LogRun | internal/pkg/process/helper.go:94-101 | the global event log, read for one incarnation, is that incarnation's events in order |
| SupervisorExamples.StartAfterStop | internal/pkg/process/helper.go:53-81 | a run in which a child is started after Stop returned |
| SupervisorExamples.StopMeetsError | internal/pkg/process/helper.go:53-75 | a run in which a stop was requested and which ends in Error |
| SupervisorExamples.StaleStopped | internal/pkg/process/helper.go:56-61 | a run in which Stopped of the old incarnation follows Active of the new one |
| LogBuffer.ChunkInvariance | internal/pkg/logbuf/logbuf.go:46-60 | after any writes the ring is the suffix of all complete lines whose length is the smaller of the capacity and their number, and partial the unfinished rest, however the bytes were chunked |
| LogBuffer.CompleteAppend | internal/pkg/logbuf/logbuf.go:48-60 | cutting a text anywhere changes neither its lines nor its tail |
| LogBuffer.LinesRebuildText | internal/pkg/logbuf/logbuf.go:46-60 | the complete lines with their newlines and then the rest are the text |
| LogBuffer.LinesHoldNoNewline | internal/pkg/logbuf/logbuf.go:48-51 | neither a line nor the rest holds a newline |
| LogBuffer.Buffer.Write | internal/pkg/logbuf/logbuf.go:35-70 | a failed write remembers nothing, though the file may have taken some bytes; a successful one puts the new lines behind the old ones, drops the oldest beyond the capacity so that the newest completed line is last, and leaves a token with every subscriber if a line was completed |
| LogBuffer.Buffer.AppendLines | internal/pkg/logbuf/logbuf.go:46-60 | the cutting loop computes the feed; it completes a line exactly when the chunk holds a newline |
| LogBuffer.CutIsFeed | internal/pkg/logbuf/logbuf.go:48-60 | trimming the ring after each line is trimming it once at the end |
| LogBuffer.Buffer.SnapshotAndSubscribe | internal/pkg/logbuf/logbuf.go:72-88 | the snapshot is current and a later write cannot be missed |
| LogBuffer.Buffer.Lines | internal/pkg/logbuf/logbuf.go:90-96 | reading after a token brings the reader up to date |
| Notify.NoLostWakeUp | internal/services/domain/notify.go:26-71 | a stream whose last snapshot is stale has a token waiting or a writer that has yet to send it one |
| Notify.QuiescentIsCurrent | internal/application/api/route/domain/stream.go:28-62 | when writers are done and no token is left, every stream has sent the current store |
| Notify.WritersNeverStall | internal/services/domain/notify.go:26-36 | publishing never waits for a reader |
| Notify.PublishReachesEverybody | internal/services/domain/notify.go:26-36 | a publish has sent to every stream subscribed when it ends |
| Notify.SubscribersAreOpen | internal/services/domain/notify.go:10-24 | a publish is for exactly the streams that have subscribed and not cancelled |
| Notify.WakeUpsAreBounded | internal/services/domain/notify.go:30-35 | a stream wakes up at most once per token sent |
| Notify.ListShowsTheStore | internal/application/api/route/domain/stream.go:29-56 | a list shows every change made before its queries, in each half those before that half's query |
| Pagination.PageIsPrefix | internal/pkg/repo/scopes/pagination.go:17-38 | for a first request or a decoded cursor the page is the first pageSize rows of what lies after the cursor |
| Pagination.List | internal/pkg/repo/domain/list.go:13-42 | no more rows than asked for, all of them wanted and after the cursor; a next cursor exactly with a full page, naming its last row |
| Pagination.NumberedPage | internal/pkg/repo/scopes/pagination.go:29-35 | page k holds the wanted rows from position (k-1)*pageSize on, at most pageSize of them |
| Pagination.RowOnItsPage | internal/pkg/repo/scopes/pagination.go:29-35 | wanted row i stands on page i/pageSize+1 at position i%pageSize |
| Pagination.RowOnNoOtherPage | internal/pkg/repo/scopes/pagination.go:29-35 | and on no other page |
| Pagination.PagesAreThePrefix | internal/pkg/repo/scopes/pagination.go:29-35 | the pages 1 to k one after the other are the first k*pageSize wanted rows |
| Pagination.RemainingShrinks | internal/pkg/repo/domain/list.go:31-39 | after a full page, what lies after the next cursor is what was left without that page |
| Pagination.WalkListsEverything | internal/pkg/repo/domain/list.go:13-42 | following cursors over a fixed table yields the whole filtered list in order |
| Pagination.WalkIsRemaining | internal/pkg/repo/scopes/pagination.go:23-28 | from any cursor the walk yields exactly what lies after it |
| Pagination.WalkOverAscends | internal/pkg/repo/domain/list.go:27-39 | however the table changes between pages, no row is listed twice and rows come oldest first |
| Pagination.StableRowsAppearOnce | internal/pkg/repo/domain/list.go:27-39 | a key under which there is a matching row throughout is listed exactly once, even if the row is rewritten between pages |
| Pagination.GarbledCursorListsAll | internal/pkg/repo/scopes/pagination.go:23-27 | an undecodable cursor drops limit and predicate: the whole filtered list |

## Left out

- DomainService.Service.CreateDomain: does not model zone validation beyond one flag, the tunnel token, or two creations that run at the same time; the code guards none of the latter.
- DomainService.Service.DeleteDomain: does not model closing and dropping the log buffer.
- DomainService.Service.Reconcile: the processes start in parallel in the code; each touches only its own row, so the model takes them in turn.
- IngressProxy.ProxyServer.ServeHTTP: covers the choice of route and the forwarded path, not headers, forwarding or error pages.
- IngressProxy.ProxyServer.ReplaceDomain: takes hostnames already normalised; lower-casing and port removal are not modelled.
- SupervisorRuns.StepsAreBounded: counts steps and back-offs, not seconds of real time; how long a child lives is not bounded.
- Status writes by supervisor events rewrite the whole row without the keyed lock and can race with a replacement; the code does not guard this and it is not part of the saga.
- Two racing creations can draw the same metrics port; the port results are for sequential runs.
- The detail stream's metrics and heartbeat tickers, and the bytes of server-sent events.
- Cloudflare's HTTP interface, SQL text, migrations, the child's command line, log file rotation and reading logs of stopped domains.
- Authentication, encryption, cookies, middleware, configuration loading and dependency wiring: short checks and wrappers that would only add easy members.
