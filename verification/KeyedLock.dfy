/** lockDomain as a step machine: any number of threads, any number of ids, every interleaving.

    One step is what a thread does between two points where another may run. mutationMu guards the map
    and the reference counts; each entry's own mutex guards the critical section. */
module KeyedLock {
  import opened Prelude

  type Tid = nat
  type Ref = nat

  /** Where a thread is. The comment names what it has just done. */
  datatype Pc =
    | Idle
    | Entering(id: string)              // called lockDomain, wants mutationMu
    | Looked(id: string, ref: Ref)      // holds mutationMu, found or made the entry
    | Counted(id: string, ref: Ref)     // refs++, still holds mutationMu
    | Waiting(id: string, ref: Ref)     // released mutationMu, wants the entry's mutex
    | Critical(id: string, ref: Ref)    // holds the entry's mutex
    | Leaving(id: string, ref: Ref)     // released the entry's mutex, wants mutationMu
    | Returning(id: string, ref: Ref)   // holds mutationMu
    | Dropped(id: string, ref: Ref)     // refs--, still holds mutationMu

  /** domainMutationLock, with the thread that holds its mutex. */
  datatype Lock = Lock(holder: Option<Tid>, refs: int)

  datatype State = State(
    mutationMu: Option<Tid>,
    locks: map<string, Ref>,
    heap: map<Ref, Lock>,
    next: Ref,
    pcs: map<Tid, Pc>)

  const INIT := State(None, map[], map[], 0, map[])

  datatype Action = Call(t: Tid, id: string) | Step(t: Tid)

  function PcOf(s: State, t: Tid): Pc { if t in s.pcs then s.pcs[t] else Idle }

  /** A thread may step unless the mutex it wants is held. */
  predicate Enabled(s: State, a: Action) {
    match a
    case Call(t, id) => PcOf(s, t).Idle?
    case Step(t) =>
      match PcOf(s, t)
      case Idle => false
      case Entering(_) => s.mutationMu.None?
      case Leaving(_, _) => s.mutationMu.None?
      case Waiting(_, ref) => ref in s.heap && s.heap[ref].holder.None?
      case Critical(_, ref) => ref in s.heap
      case Looked(_, ref) => ref in s.heap
      case Returning(_, ref) => ref in s.heap
      case Dropped(_, ref) => ref in s.heap
      case Counted(_, _) => true
  }

  function Goto(s: State, t: Tid, pc: Pc): State { s.(pcs := s.pcs[t := pc]) }

  function Apply(s: State, a: Action): State
    requires Enabled(s, a)
  {
    match a
    case Call(t, id) => Goto(s, t, Entering(id))
    case Step(t) =>
      match PcOf(s, t)
      case Entering(id) =>
        var taken := s.(mutationMu := Some(t));
        if id in s.locks then Goto(taken, t, Looked(id, s.locks[id]))
        else
          Goto(taken.(locks := s.locks[id := s.next], heap := s.heap[s.next := Lock(None, 0)], next := s.next + 1),
               t, Looked(id, s.next))
      case Looked(id, ref) =>
        Goto(s.(heap := s.heap[ref := s.heap[ref].(refs := s.heap[ref].refs + 1)]), t, Counted(id, ref))
      case Counted(id, ref) => Goto(s.(mutationMu := None), t, Waiting(id, ref))
      case Waiting(id, ref) => Goto(s.(heap := s.heap[ref := s.heap[ref].(holder := Some(t))]), t, Critical(id, ref))
      case Critical(id, ref) => Goto(s.(heap := s.heap[ref := s.heap[ref].(holder := None)]), t, Leaving(id, ref))
      case Leaving(id, ref) => Goto(s.(mutationMu := Some(t)), t, Returning(id, ref))
      case Returning(id, ref) =>
        Goto(s.(heap := s.heap[ref := s.heap[ref].(refs := s.heap[ref].refs - 1)]), t, Dropped(id, ref))
      case Dropped(id, ref) =>
        Goto(s.(mutationMu := None, locks := if s.heap[ref].refs == 0 then s.locks - {id} else s.locks), t, Idle)
  }

  ghost predicate Legal(s: State, run: seq<Action>)
    decreases |run|
  {
    run == [] || (Enabled(s, run[0]) && Legal(Apply(s, run[0]), run[1..]))
  }

  function Exec(s: State, run: seq<Action>): State
    requires Legal(s, run)
    decreases |run|
  {
    if run == [] then s else Exec(Apply(s, run[0]), run[1..])
  }

  // ---- the invariant ---------------------------------------------------------------------------

  predicate HoldsMutationMu(pc: Pc) { pc.Looked? || pc.Counted? || pc.Returning? || pc.Dropped? }

  predicate Points(pc: Pc) { !pc.Idle? && !pc.Entering? }

  /** Counted among the entry's refs. */
  predicate Refers(pc: Pc, id: string) {
    (pc.Counted? || pc.Waiting? || pc.Critical? || pc.Leaving? || pc.Returning?) && pc.id == id
  }

  /** Uses the entry without being counted: before its refs++ or after its refs--. */
  predicate Touches(pc: Pc, id: string) { (pc.Looked? || pc.Dropped?) && pc.id == id }

  ghost function Referrers(s: State, id: string): set<Tid> {
    set t | t in s.pcs && Refers(s.pcs[t], id)
  }

  ghost predicate GlobalOk(s: State) {
    && (forall t :: t in s.pcs ==> (HoldsMutationMu(s.pcs[t]) <==> s.mutationMu == Some(t)))
    && (s.mutationMu.Some? ==> s.mutationMu.value in s.pcs)
  }

  /** Every thread inside lockDomain's protocol points at the one object in the map. */
  ghost predicate PointersOk(s: State) {
    forall t :: t in s.pcs && Points(s.pcs[t]) ==> s.pcs[t].id in s.locks && s.locks[s.pcs[t].id] == s.pcs[t].ref
  }

  ghost predicate ObjectsOk(s: State) {
    && (forall id :: id in s.locks ==> s.locks[id] in s.heap && s.locks[id] < s.next)
    && (forall a, b :: a in s.locks && b in s.locks && s.locks[a] == s.locks[b] ==> a == b)
  }

  ghost predicate CountsOk(s: State) {
    forall id :: id in s.locks && s.locks[id] in s.heap ==> s.heap[s.locks[id]].refs == |Referrers(s, id)|
  }

  /** An entry stays only while somebody needs it. */
  ghost predicate NeededOk(s: State) {
    forall id :: id in s.locks ==> Needed(s, id)
  }

  ghost predicate Needs(s: State, t: Tid, id: string) {
    t in s.pcs && (Refers(s.pcs[t], id) || Touches(s.pcs[t], id))
  }

  ghost predicate Needed(s: State, id: string) { exists t :: Needs(s, t, id) }

  ghost predicate HoldersOk(s: State) {
    forall id, t :: id in s.locks && s.locks[id] in s.heap ==>
      (s.heap[s.locks[id]].holder == Some(t) <==> (t in s.pcs && s.pcs[t] == Critical(id, s.locks[id])))
  }

  ghost predicate Inv(s: State) {
    GlobalOk(s) && PointersOk(s) && ObjectsOk(s) && CountsOk(s) && NeededOk(s) && HoldersOk(s)
  }

  // ---- one lemma per conjunct --------------------------------------------------------------------

  lemma ReferrersGoto(s: State, r: State, t: Tid, id: string)
    requires t in r.pcs && r.pcs == s.pcs[t := r.pcs[t]]
    ensures Referrers(r, id) == if Refers(r.pcs[t], id) then Referrers(s, id) + {t} else Referrers(s, id) - {t}
  {
  }

  lemma GlobalStep(s: State, a: Action)
    requires Inv(s) && Enabled(s, a)
    ensures GlobalOk(Apply(s, a))
  {
  }

  /** Whoever keeps an entry alive beside t. */
  lemma OthersNeedIt(s: State, t: Tid, id: string, ref: Ref)
    requires Inv(s) && t in s.pcs && s.pcs[t] == Dropped(id, ref) && s.heap[ref].refs == 0
    ensures forall u :: u in s.pcs && u != t && Points(s.pcs[u]) ==> s.pcs[u].id != id
  {
    assert Referrers(s, id) == {};
    forall u | u in s.pcs && u != t && Points(s.pcs[u]) ensures s.pcs[u].id != id {
      assert u !in Referrers(s, id);
    }
  }

  lemma PointersStep(s: State, a: Action)
    requires Inv(s) && Enabled(s, a)
    ensures PointersOk(Apply(s, a))
  {
    if a.Step? && PcOf(s, a.t).Dropped? {
      DropKeepsPointers(s, a);
    }
  }

  lemma DropKeepsPointers(s: State, a: Action)
    requires Inv(s) && Enabled(s, a) && a.Step? && PcOf(s, a.t).Dropped?
    ensures PointersOk(Apply(s, a))
  {
    var pc := s.pcs[a.t];
    if s.heap[pc.ref].refs == 0 { OthersNeedIt(s, a.t, pc.id, pc.ref); }
  }

  lemma ObjectsStep(s: State, a: Action)
    requires Inv(s) && Enabled(s, a)
    ensures ObjectsOk(Apply(s, a))
  {
  }

  lemma CountsStep(s: State, a: Action)
    requires Inv(s) && Enabled(s, a)
    ensures CountsOk(Apply(s, a))
  {
    var r := Apply(s, a);
    forall id | id in r.locks && r.locks[id] in r.heap ensures r.heap[r.locks[id]].refs == |Referrers(r, id)| {
      CountStep(s, a, id);
    }
  }

  lemma CountStep(s: State, a: Action, id: string)
    requires PointersOk(s) && ObjectsOk(s) && CountsOk(s) && Enabled(s, a)
    requires id in Apply(s, a).locks && Apply(s, a).locks[id] in Apply(s, a).heap
    ensures Apply(s, a).heap[Apply(s, a).locks[id]].refs == |Referrers(Apply(s, a), id)|
  {
    ReferrersDelta(s, a, id);
    RefsDelta(s, a, id);
    if id !in s.locks { NobodyRefers(s, id); }
  }

  lemma ReferrersDelta(s: State, a: Action, id: string)
    requires Enabled(s, a)
    ensures |Referrers(Apply(s, a), id)|
         == |Referrers(s, id)| + Weight(Apply(s, a).pcs[a.t], id) - Weight(PcOf(s, a.t), id)
  {
    ReferrersGoto(s, Apply(s, a), a.t, id);
    SizeDelta(Referrers(s, id), a.t, Refers(PcOf(s, a.t), id), Refers(Apply(s, a).pcs[a.t], id));
  }

  lemma SizeDelta(before: set<Tid>, t: Tid, was: bool, now: bool)
    requires t in before <==> was
    ensures |if now then before + {t} else before - {t}| == |before| + (if now then 1 else 0) - (if was then 1 else 0)
  {
  }

  function Weight(pc: Pc, id: string): int { if Refers(pc, id) then 1 else 0 }

  /** A step changes an entry's count by what it changes about the stepping thread. */
  lemma RefsDelta(s: State, a: Action, id: string)
    requires PointersOk(s) && ObjectsOk(s) && Enabled(s, a) && id in Apply(s, a).locks
    ensures var r := Apply(s, a);
            && r.locks[id] in r.heap
            && (id in s.locks ==>
                 r.heap[r.locks[id]].refs
                 == s.heap[s.locks[id]].refs + Weight(r.pcs[a.t], id) - Weight(PcOf(s, a.t), id))
            && (id !in s.locks ==> r.heap[r.locks[id]].refs == 0 && !Refers(r.pcs[a.t], id))
  {
  }

  lemma NobodyRefers(s: State, id: string)
    requires PointersOk(s) && id !in s.locks
    ensures Referrers(s, id) == {}
  {
  }

  lemma NeededStep(s: State, a: Action)
    requires Inv(s) && Enabled(s, a)
    ensures NeededOk(Apply(s, a))
  {
    forall id | id in Apply(s, a).locks ensures Needed(Apply(s, a), id) {
      if id in s.locks { NeededStays(s, a, id); } else { assert Needs(Apply(s, a), a.t, id); }
    }
  }

  lemma NeededStays(s: State, a: Action, id: string)
    requires Inv(s) && Enabled(s, a) && id in s.locks && id in Apply(s, a).locks
    ensures Needed(Apply(s, a), id)
  {
    if !Needs(Apply(s, a), a.t, id) { OthersNeed(s, a, id); }
  }

  /** If the stepping thread has no more use for the entry, somebody else has. */
  lemma OthersNeed(s: State, a: Action, id: string)
    requires Inv(s) && Enabled(s, a) && id in s.locks && id in Apply(s, a).locks && !Needs(Apply(s, a), a.t, id)
    ensures Needed(Apply(s, a), id)
  {
    var u: Tid;
    if a.Step? && PcOf(s, a.t).Dropped? && s.pcs[a.t].id == id {
      StillReferred(s, a, id);
      u :| u in Referrers(s, id);
    } else {
      assert Needed(s, id);
      u :| Needs(s, u, id);
    }
    OthersStay(s, a, u, id);
  }

  /** An unlock that leaves the entry in the map saw a positive count. */
  lemma StillReferred(s: State, a: Action, id: string)
    requires PointersOk(s) && ObjectsOk(s) && CountsOk(s) && Enabled(s, a) && id in s.locks && id in Apply(s, a).locks
    requires a.Step? && PcOf(s, a.t).Dropped? && s.pcs[a.t].id == id
    ensures Referrers(s, id) != {} && a.t !in Referrers(s, id)
  {
    assert |Referrers(s, id)| != 0;
  }

  lemma OthersStay(s: State, a: Action, u: Tid, id: string)
    requires Enabled(s, a) && Needs(s, u, id) && u != a.t
    ensures Needs(Apply(s, a), u, id)
  {
    assert Apply(s, a).pcs[u] == s.pcs[u];
  }

  lemma HoldersStep(s: State, a: Action)
    requires Inv(s) && Enabled(s, a)
    ensures HoldersOk(Apply(s, a))
  {
    var r := Apply(s, a);
    forall id, t | id in r.locks && r.locks[id] in r.heap
      ensures r.heap[r.locks[id]].holder == Some(t) <==> (t in r.pcs && r.pcs[t] == Critical(id, r.locks[id]))
    {
      HolderStep(s, a, id, t);
    }
  }

  lemma HolderStep(s: State, a: Action, id: string, t: Tid)
    requires PointersOk(s) && ObjectsOk(s) && HoldersOk(s) && Enabled(s, a)
    requires id in Apply(s, a).locks && Apply(s, a).locks[id] in Apply(s, a).heap
    ensures var r := Apply(s, a);
            r.heap[r.locks[id]].holder == Some(t) <==> (t in r.pcs && r.pcs[t] == Critical(id, r.locks[id]))
  {
    if id in s.locks {
      HolderDelta(s, a, id);
    } else if t in s.pcs {
      assert Points(s.pcs[t]) ==> s.pcs[t].id != id;
    }
  }

  /** An entry's mutex changes hands only by the stepping thread's own acquire or release. */
  lemma HolderDelta(s: State, a: Action, id: string)
    requires PointersOk(s) && ObjectsOk(s) && Enabled(s, a) && id in Apply(s, a).locks && id in s.locks
    ensures var r := Apply(s, a);
            && r.locks[id] == s.locks[id] && r.locks[id] in r.heap
            && r.heap[r.locks[id]].holder ==
               (if r.pcs[a.t].Critical? && r.pcs[a.t].id == id then Some(a.t)
                else if PcOf(s, a.t).Critical? && PcOf(s, a.t).id == id then None
                else s.heap[s.locks[id]].holder)
            && (PcOf(s, a.t).Waiting? && PcOf(s, a.t).id == id ==> s.heap[s.locks[id]].holder.None?)
  {
  }

  lemma InvStep(s: State, a: Action)
    requires Inv(s) && Enabled(s, a)
    ensures Inv(Apply(s, a))
  {
    GlobalStep(s, a);
    PointersStep(s, a);
    ObjectsStep(s, a);
    CountsStep(s, a);
    NeededStep(s, a);
    HoldersStep(s, a);
  }

  lemma {:induction false} InvRun(s: State, run: seq<Action>)
    requires Inv(s) && Legal(s, run)
    ensures Inv(Exec(s, run))
    decreases |run|
  {
    if run != [] {
      InvStep(s, run[0]);
      InvRun(Apply(s, run[0]), run[1..]);
    }
  }

  // ---- what it gives -------------------------------------------------------------------------------

  /** At most one thread is in the critical section of an id, in every reachable state. */
  lemma MutualExclusion(run: seq<Action>, t: Tid, u: Tid)
    requires Legal(INIT, run)
    requires PcOf(Exec(INIT, run), t).Critical? && PcOf(Exec(INIT, run), u).Critical?
    requires PcOf(Exec(INIT, run), t).id == PcOf(Exec(INIT, run), u).id
    ensures t == u
  {
    InvRun(INIT, run);
    var s := Exec(INIT, run);
    var id := s.pcs[t].id;
    assert s.heap[s.locks[id]].holder == Some(t);
    assert s.heap[s.locks[id]].holder == Some(u);
  }

  /** Threads using one id use one lock object, and its count is the number of them that have been
      counted. */
  lemma OneObjectPerId(run: seq<Action>, t: Tid, u: Tid)
    requires Legal(INIT, run)
    requires Points(PcOf(Exec(INIT, run), t)) && Points(PcOf(Exec(INIT, run), u))
    requires PcOf(Exec(INIT, run), t).id == PcOf(Exec(INIT, run), u).id
    ensures var s := Exec(INIT, run);
            var pc := PcOf(s, t);
            && pc.ref == PcOf(s, u).ref && pc.id in s.locks && s.locks[pc.id] == pc.ref
            && pc.ref in s.heap && s.heap[pc.ref].refs == |Referrers(s, pc.id)|
  {
    InvRun(INIT, run);
  }

  /** An entry disappears only in a step after which no thread points at it. */
  lemma DeletedWhenUnused(run: seq<Action>, a: Action, id: string)
    requires Legal(INIT, run) && Enabled(Exec(INIT, run), a)
    requires id in Exec(INIT, run).locks && id !in Apply(Exec(INIT, run), a).locks
    ensures var r := Apply(Exec(INIT, run), a);
            forall t :: Points(PcOf(r, t)) ==> PcOf(r, t).id != id
  {
    InvRun(INIT, run);
    InvStep(Exec(INIT, run), a);
  }

  /** When every thread is idle again the map is empty: no id ever used leaks an entry. */
  lemma EmptyAtQuiescence(run: seq<Action>)
    requires Legal(INIT, run)
    requires forall t :: PcOf(Exec(INIT, run), t).Idle?
    ensures Exec(INIT, run).locks == map[]
  {
    InvRun(INIT, run);
    var s := Exec(INIT, run);
    assert forall t :: t in s.pcs ==> PcOf(s, t) == s.pcs[t];
    assert s.locks.Keys == {};
  }

  /** The two kinds of mutex cannot deadlock: while any thread is inside, some thread can step. */
  lemma NoDeadlock(run: seq<Action>, t: Tid) returns (u: Tid)
    requires Legal(INIT, run) && !PcOf(Exec(INIT, run), t).Idle?
    ensures Enabled(Exec(INIT, run), Step(u))
  {
    InvRun(INIT, run);
    u := SomebodyCanStep(Exec(INIT, run), t);
  }

  lemma SomebodyCanStep(s: State, t: Tid) returns (u: Tid)
    requires GlobalOk(s) && PointersOk(s) && ObjectsOk(s) && HoldersOk(s) && !PcOf(s, t).Idle?
    ensures Enabled(s, Step(u))
  {
    u := if s.mutationMu.Some? then s.mutationMu.value else t;
    var pc := s.pcs[u];
    if pc.Waiting? && s.heap[pc.ref].holder.Some? {
      u := s.heap[pc.ref].holder.value;
      assert s.pcs[u] == Critical(pc.id, pc.ref);
    }
  }

  /** A thread waits for an entry's mutex only while another is in the critical section of the same id. */
  lemma OnlyItsOwnIdBlocks(run: seq<Action>, t: Tid)
    requires Legal(INIT, run) && PcOf(Exec(INIT, run), t).Waiting?
    ensures var s := Exec(INIT, run);
            Enabled(s, Step(t)) <==> forall u :: PcOf(s, u).Critical? ==> PcOf(s, u).id != PcOf(s, t).id
  {
    InvRun(INIT, run);
    var s := Exec(INIT, run);
    var pc := s.pcs[t];
    if s.heap[pc.ref].holder.Some? { assert PcOf(s, s.heap[pc.ref].holder.value) == Critical(pc.id, pc.ref); }
  }

  // ---- every call is served ------------------------------------------------------------------------

  /** How often t called lockDomain for id. */
  function Calls(run: seq<Action>, t: Tid, id: string): nat {
    if run == [] then 0 else (if run[0] == Call(t, id) then 1 else 0) + Calls(run[1..], t, id)
  }

  /** How often t acquired id's mutex. */
  function Entries(s: State, run: seq<Action>, t: Tid, id: string): nat
    requires Legal(s, run)
    decreases |run|
  {
    if run == [] then 0
    else
      var next := Apply(s, run[0]);
      (if run[0] == Step(t) && PcOf(next, t).Critical? && PcOf(next, t).id == id then 1 else 0)
      + Entries(next, run[1..], t, id)
  }

  /** Called for id, and not in yet. */
  predicate OnItsWay(pc: Pc, id: string) {
    (pc.Entering? || pc.Looked? || pc.Counted? || pc.Waiting?) && pc.id == id
  }

  lemma {:induction false} ServedFrom(s: State, run: seq<Action>, t: Tid, id: string)
    requires Legal(s, run)
    ensures Entries(s, run, t, id) + (if OnItsWay(PcOf(Exec(s, run), t), id) then 1 else 0)
         == Calls(run, t, id) + (if OnItsWay(PcOf(s, t), id) then 1 else 0)
    decreases |run|
  {
    if run != [] { ServedFrom(Apply(s, run[0]), run[1..], t, id); }
  }

  /** Every call leads into the critical section of its own id, once. */
  lemma EveryCallIsServed(run: seq<Action>, t: Tid, id: string)
    requires Legal(INIT, run)
    ensures Calls(run, t, id)
         == Entries(INIT, run, t, id) + (if OnItsWay(PcOf(Exec(INIT, run), t), id) then 1 else 0)
  {
    ServedFrom(INIT, run, t, id);
  }

  function CallsOf(run: seq<Action>, t: Tid): nat {
    if run == [] then 0 else (if run[0].Call? && run[0].t == t then 1 else 0) + CallsOf(run[1..], t)
  }

  function StepsOf(run: seq<Action>, t: Tid): nat {
    if run == [] then 0 else (if run[0] == Step(t) then 1 else 0) + StepsOf(run[1..], t)
  }

  /** Steps from a place to the end of unlock. */
  function StepsLeft(pc: Pc): nat {
    match pc
    case Idle => 0
    case Entering(_) => 8
    case Looked(_, _) => 7
    case Counted(_, _) => 6
    case Waiting(_, _) => 5
    case Critical(_, _) => 4
    case Leaving(_, _) => 3
    case Returning(_, _) => 2
    case Dropped(_, _) => 1
  }

  lemma {:induction false} StepsFrom(s: State, run: seq<Action>, t: Tid)
    requires Legal(s, run)
    ensures StepsOf(run, t) + StepsLeft(PcOf(Exec(s, run), t)) == 8 * CallsOf(run, t) + StepsLeft(PcOf(s, t))
    decreases |run|
  {
    if run != [] { StepsFrom(Apply(s, run[0]), run[1..], t); }
  }

  /** A call and its unlock are eight steps of the thread: with NoDeadlock, every run that can take no further
      step has finished all its calls. */
  lemma StepsAreBounded(run: seq<Action>, t: Tid)
    requires Legal(INIT, run)
    ensures StepsOf(run, t) <= 8 * CallsOf(run, t)
    ensures StepsOf(run, t) == 8 * CallsOf(run, t) <==> PcOf(Exec(INIT, run), t).Idle?
  {
    StepsFrom(INIT, run, t);
  }
}
