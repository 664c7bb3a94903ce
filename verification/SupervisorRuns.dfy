/** Many domains, many incarnations: the supervisor's map, its children, and every interleaving of Start,
    Stop, child exits, timers and the incarnations' goroutines. */
module SupervisorRuns {
  import opened Prelude
  import opened Supervisor

  datatype State = State(
    procs: map<string, Ref>,
    incs: map<Ref, Inc>,
    live: map<Child, Ref>,          // running children and the incarnation each belongs to
    nextRef: Ref,
    nextChild: Child,
    found: set<Ref>,                // incarnations some Stop call has looked up
    log: seq<(Ref, Event)>)         // all events in the order they were emitted

  const INIT := State(map[], map[], map[], 0, 0, {}, [])

  datatype Action =
    | StartCall(domain: string)
    | Adv(r: Ref, ok: bool)         // a step of r's goroutine
    | ChildExit(c: Child)
    | TimerFire(r: Ref)
    | ResetRun(r: Ref)
    | StopLookup(domain: string)    // Stop under s.mu
    | StopFlag(r: Ref)              // Stop under mp.mu; the signal itself is just a cause for ChildExit

  predicate Enabled(s: State, a: Action) {
    match a
    case StartCall(_) => true
    case Adv(r, _) =>
      && r in s.incs && !s.incs[r].pc.Done?
      && (s.incs[r].pc.Watching? ==> s.incs[r].cmd.Some? && s.incs[r].cmd.value !in s.live)
    case ChildExit(c) => c in s.live
    case TimerFire(r) => r in s.incs && s.incs[r].timerArmed
    case ResetRun(r) => r in s.incs && s.incs[r].lateFires > 0
    case StopLookup(_) => true
    case StopFlag(r) => r in s.found && r in s.incs
  }

  /** The four unconditional deletes by domain. */
  predicate Deletes(pc: Pc) { pc.StartFailed? || pc.KilledDeleting? || pc.StopDeleting? || pc.ErrDeleting? }

  function Tagged(r: Ref, events: seq<Event>): seq<(Ref, Event)> {
    if events == [] then [] else [(r, events[0])] + Tagged(r, events[1..])
  }

  function Apply(s: State, a: Action): State
    requires Enabled(s, a)
  {
    match a
    case StartCall(d) =>
      if d in s.procs then s
      else s.(procs := s.procs[d := s.nextRef], incs := s.incs[s.nextRef := NewInc(d)], nextRef := s.nextRef + 1)
    case Adv(r, ok) =>
      var i := s.incs[r];
      s.(incs := s.incs[r := Advance(i, ok, s.nextChild)],
         procs := if Deletes(i.pc) then s.procs - {i.domain} else s.procs,
         live := if Spawns(i.pc, ok) then s.live[s.nextChild := r]
                 else if i.pc.Killing? then s.live - {i.pc.child} else s.live,
         nextChild := s.nextChild + (if Spawns(i.pc, ok) then 1 else 0),
         log := s.log + Tagged(r, Emits(i.pc)))
    case ChildExit(c) => s.(live := s.live - {c})
    case TimerFire(r) => s.(incs := s.incs[r := Fire(s.incs[r])])
    case ResetRun(r) => s.(incs := s.incs[r := Reset(s.incs[r])])
    case StopLookup(d) => if d in s.procs then s.(found := s.found + {s.procs[d]}) else s
    case StopFlag(r) => s.(incs := s.incs[r := Flag(s.incs[r])])
  }

  ghost predicate Legal(s: State, run: seq<Action>)
    decreases |run|
  {
    run == [] || (Enabled(s, run[0]) && Legal(Apply(s, run[0]), run[1..]))
  }

  function Exec(s: State, run: seq<Action>): State
    requires Legal(s, run)
    decreases |run|
  {
    if run == [] then s else Exec(Apply(s, run[0]), run[1..])
  }

  // ---- the invariant -----------------------------------------------------------------------------

  /** The incarnation's entry is in the map. */
  predicate Registered(pc: Pc) { !pc.KilledEmitting? && !pc.StopEmitting? && !pc.ErrEmitting? && !pc.Done? }

  /** The child that may be running, by where its goroutine is. */
  function Current(i: Inc): Option<Child> {
    match i.pc
    case Spawned(c) => Some(c)
    case Killing(c) => Some(c)
    case Respawned(c, _) => Some(c)
    case Arming => i.cmd
    case Announcing => i.cmd
    case Watching => i.cmd
    case Rearming(_) => i.cmd
    case Reannouncing(_) => i.cmd
    case _ => None
  }

  predicate NoCmdYet(pc: Pc) {
    pc.Starting? || pc.StartFailed? || pc.Spawned? || pc.Killing? || pc.KilledDeleting? || pc.KilledEmitting?
    || pc == Done(FailedStart) || pc == Done(KilledAtStart)
  }

  ghost predicate RegisteredOk(s: State) {
    forall r :: r in s.incs && Registered(s.incs[r].pc) ==>
      s.incs[r].domain in s.procs && s.procs[s.incs[r].domain] == r
  }

  ghost predicate EntriesOk(s: State) {
    forall d :: d in s.procs ==>
      s.procs[d] in s.incs && s.incs[s.procs[d]].domain == d && Registered(s.incs[s.procs[d]].pc)
  }

  ghost predicate LiveOk(s: State) {
    forall c :: c in s.live ==> c < s.nextChild && s.live[c] in s.incs && Current(s.incs[s.live[c]]) == Some(c)
  }

  ghost predicate CmdOk(s: State) {
    forall r :: r in s.incs && !NoCmdYet(s.incs[r].pc) ==> s.incs[r].cmd.Some?
  }

  ghost predicate FreshOk(s: State) {
    (forall r :: r in s.incs ==> r < s.nextRef) && (forall r :: r in s.found ==> r in s.incs)
  }

  /** Of two incarnations of a domain the older one has left the map. */
  ghost predicate SuccessionOk(s: State) {
    forall q, r :: q in s.incs && r in s.incs && q < r && s.incs[q].domain == s.incs[r].domain ==>
        !Registered(s.incs[q].pc)
  }

  ghost predicate LocalsOk(s: State) {
    forall r :: r in s.incs ==> LocalOk(s.incs[r])
  }

  ghost predicate Inv(s: State) {
    RegisteredOk(s) && EntriesOk(s) && LiveOk(s) && CmdOk(s) && FreshOk(s) && SuccessionOk(s) && LocalsOk(s)
  }

  lemma RegisteredStep(s: State, a: Action)
    requires RegisteredOk(s) && EntriesOk(s) && FreshOk(s) && Enabled(s, a)
    ensures RegisteredOk(Apply(s, a))
  {
    if a.Adv? { RegisteredAdvance(s, a.r, a.ok); }
  }

  lemma RegisteredAdvance(s: State, r: Ref, ok: bool)
    requires RegisteredOk(s) && EntriesOk(s) && Enabled(s, Adv(r, ok))
    ensures RegisteredOk(Apply(s, Adv(r, ok)))
  {
    StaysRegistered(s.incs[r], ok, s.nextChild);
  }

  /** A step registers nobody and unregisters exactly with its delete. */
  lemma StaysRegistered(i: Inc, ok: bool, born: Child)
    requires !i.pc.Done?
    ensures Registered(Advance(i, ok, born).pc) <==> Registered(i.pc) && !Deletes(i.pc)
    ensures Deletes(i.pc) ==> Registered(i.pc)
    ensures Advance(i, ok, born).domain == i.domain
  {
  }

  lemma EntriesStep(s: State, a: Action)
    requires RegisteredOk(s) && EntriesOk(s) && FreshOk(s) && Enabled(s, a)
    ensures EntriesOk(Apply(s, a))
  {
    if a.Adv? { EntriesAdvance(s, a.r, a.ok); }
  }

  lemma EntriesAdvance(s: State, r: Ref, ok: bool)
    requires RegisteredOk(s) && EntriesOk(s) && Enabled(s, Adv(r, ok))
    ensures EntriesOk(Apply(s, Adv(r, ok)))
  {
    StaysRegistered(s.incs[r], ok, s.nextChild);
  }

  lemma LiveStep(s: State, a: Action)
    requires LiveOk(s) && FreshOk(s) && CmdOk(s) && Enabled(s, a)
    ensures LiveOk(Apply(s, a))
  {
    if a.Adv? {
      LiveAdvance(s, a.r, a.ok);
    } else if a.TimerFire? || a.ResetRun? || a.StopFlag? {
      LiveTouch(s, a);
    }
  }

  lemma LiveTouch(s: State, a: Action)
    requires LiveOk(s) && Enabled(s, a) && (a.TimerFire? || a.ResetRun? || a.StopFlag?)
    ensures LiveOk(Apply(s, a))
  {
  }

  lemma LiveAdvance(s: State, r: Ref, ok: bool)
    requires LiveOk(s) && FreshOk(s) && Enabled(s, Adv(r, ok))
    ensures LiveOk(Apply(s, Adv(r, ok)))
  {
    var t := Apply(s, Adv(r, ok));
    forall c | c in t.live ensures c < t.nextChild && t.live[c] in t.incs && Current(t.incs[t.live[c]]) == Some(c) {
      if c in s.live && s.live[c] == r {
        CurrentKept(s.incs[r], ok, s.nextChild, c);
      }
    }
  }

  /** A running child stays its incarnation's current one until the goroutine waits for or kills it. */
  lemma CurrentKept(i: Inc, ok: bool, born: Child, c: Child)
    requires Current(i) == Some(c) && !i.pc.Killing? && !i.pc.Watching?
    ensures Current(Advance(i, ok, born)) == Some(c) && !Spawns(i.pc, ok)
  {
  }

  lemma CmdStep(s: State, a: Action)
    requires CmdOk(s) && Enabled(s, a)
    ensures CmdOk(Apply(s, a))
  {
  }

  lemma FreshStep(s: State, a: Action)
    requires EntriesOk(s) && FreshOk(s) && Enabled(s, a)
    ensures FreshOk(Apply(s, a))
  {
  }

  lemma SuccessionStep(s: State, a: Action)
    requires RegisteredOk(s) && FreshOk(s) && SuccessionOk(s) && Enabled(s, a)
    ensures SuccessionOk(Apply(s, a))
  {
    if a.Adv? {
      StaysRegistered(s.incs[a.r], a.ok, s.nextChild);
    } else if a.StartCall? {
      SuccessionStart(s, a.domain);
    }
  }

  lemma SuccessionStart(s: State, d: string)
    requires RegisteredOk(s) && FreshOk(s) && SuccessionOk(s)
    ensures SuccessionOk(Apply(s, StartCall(d)))
  {
  }

  lemma LocalsPut(s: State, t: State, r: Ref)
    requires LocalsOk(s) && r in t.incs && t.incs == s.incs[r := t.incs[r]] && LocalOk(t.incs[r])
    ensures LocalsOk(t)
  {
  }

  lemma LocalsStep(s: State, a: Action)
    requires LocalsOk(s) && Enabled(s, a)
    ensures LocalsOk(Apply(s, a))
  {
    if a.StartCall? {
      LocalsStart(s, a);
    } else if a.Adv? {
      LocalsAdv(s, a);
    } else if a.TimerFire? || a.ResetRun? || a.StopFlag? {
      LocalsTouch(s, a);
    } else {
      assert Apply(s, a).incs == s.incs;
    }
  }

  lemma LocalsStart(s: State, a: Action)
    requires LocalsOk(s) && Enabled(s, a) && a.StartCall?
    ensures LocalsOk(Apply(s, a))
  {
    if a.domain !in s.procs {
      NewIncOk(a.domain);
      assert Apply(s, a).incs == s.incs[s.nextRef := NewInc(a.domain)];
      LocalsPut(s, Apply(s, a), s.nextRef);
    } else {
      assert Apply(s, a).incs == s.incs;
    }
  }

  lemma LocalsAdv(s: State, a: Action)
    requires LocalsOk(s) && Enabled(s, a) && a.Adv?
    ensures LocalsOk(Apply(s, a))
  {
    AdvanceKeeps(s.incs[a.r], a.ok, s.nextChild);
    LocalsPut(s, Apply(s, a), a.r);
  }

  lemma LocalsTouch(s: State, a: Action)
    requires LocalsOk(s) && Enabled(s, a) && (a.TimerFire? || a.ResetRun? || a.StopFlag?)
    ensures LocalsOk(Apply(s, a))
  {
    if a.ResetRun? { ResetKeeps(s.incs[a.r]); }
    if a.StopFlag? { FlagKeeps(s.incs[a.r]); }
    LocalsPut(s, Apply(s, a), a.r);
  }

  lemma InvStep(s: State, a: Action)
    requires Inv(s) && Enabled(s, a)
    ensures Inv(Apply(s, a))
  {
    RegisteredStep(s, a);
    EntriesStep(s, a);
    LiveStep(s, a);
    CmdStep(s, a);
    FreshStep(s, a);
    SuccessionStep(s, a);
    LocalsStep(s, a);
  }

  lemma {:induction false} InvRun(s: State, run: seq<Action>)
    requires Inv(s) && Legal(s, run)
    ensures Inv(Exec(s, run))
    decreases |run|
  {
    if run != [] {
      InvStep(s, run[0]);
      InvRun(Apply(s, run[0]), run[1..]);
    }
  }

  // ---- exclusivity -------------------------------------------------------------------------------

  /** In every reachable state a domain has at most one running child, and a running child's incarnation
      is the one the map names. */
  lemma OneLiveChildPerDomain(run: seq<Action>, c: Child, e: Child)
    requires Legal(INIT, run)
    requires c in Exec(INIT, run).live && e in Exec(INIT, run).live
    ensures var s := Exec(INIT, run);
            && s.live[c] in s.incs && s.live[e] in s.incs
            && s.incs[s.live[c]].domain in s.procs && s.procs[s.incs[s.live[c]].domain] == s.live[c]
            && (s.incs[s.live[c]].domain == s.incs[s.live[e]].domain ==> c == e)
  {
    InvRun(INIT, run);
    var s := Exec(INIT, run);
    CurrentIsRegistered(s.incs[s.live[c]]);
    CurrentIsRegistered(s.incs[s.live[e]]);
  }

  lemma CurrentIsRegistered(i: Inc)
    ensures Current(i).Some? ==> Registered(i.pc)
  {
  }

  /** The deletes name only a domain, yet an incarnation only ever deletes its own entry. */
  lemma DeletesOwnEntry(run: seq<Action>, r: Ref, ok: bool)
    requires Legal(INIT, run) && Enabled(Exec(INIT, run), Adv(r, ok))
    requires Deletes(Exec(INIT, run).incs[r].pc)
    ensures var s := Exec(INIT, run);
            s.incs[r].domain in s.procs && s.procs[s.incs[r].domain] == r
  {
    InvRun(INIT, run);
  }

  // ---- what one incarnation does -------------------------------------------------------------------

  /** A finished incarnation's events, by how it ended. */
  lemma FinishedTraces(run: seq<Action>, r: Ref)
    requires Legal(INIT, run) && r in Exec(INIT, run).incs && Exec(INIT, run).incs[r].pc.Done?
    ensures var i := Exec(INIT, run).incs[r];
            match i.pc.how
            case FailedStart => i.events == []
            case KilledAtStart => i.events == [Stopped] && i.stopRequested
            case StoppedRun => i.events == RunTrace(i.restarts) + [Stopped] && i.stopRequested
            case ErroredRun => i.events == RunTrace(i.restarts) + [Error(MAX_RESTART_ATTEMPTS)]
  {
    InvRun(INIT, run);
    DoneTrace(Exec(INIT, run).incs[r]);
  }

  lemma DoneTrace(i: Inc)
    requires i.pc.Done? && TraceOk(i.pc, i.events, i.restarts) && FlagOk(i.pc, i.stopRequested, i.asked)
    ensures match i.pc.how
            case FailedStart => i.events == []
            case KilledAtStart => i.events == [Stopped] && i.stopRequested
            case StoppedRun => i.events == RunTrace(i.restarts) + [Stopped] && i.stopRequested
            case ErroredRun => i.events == RunTrace(i.restarts) + [Error(MAX_RESTART_ATTEMPTS)]
  {
  }

  /** While the entry is in the map no terminal event has been emitted. */
  lemma TerminalEventsComeAfterRemoval(run: seq<Action>, r: Ref, k: nat)
    requires Legal(INIT, run) && r in Exec(INIT, run).incs && Registered(Exec(INIT, run).incs[r].pc)
    requires k < |Exec(INIT, run).incs[r].events|
    ensures Exec(INIT, run).incs[r].events[k].Active?
    ensures k == 0 <==> Exec(INIT, run).incs[r].events[k] == Active(0)
  {
    InvRun(INIT, run);
    RegisteredTrace(Exec(INIT, run).incs[r], k);
  }

  lemma RegisteredTrace(i: Inc, k: nat)
    requires TraceOk(i.pc, i.events, i.restarts) && RestartsOk(i.pc, i.restarts, i.lastNap)
    requires Registered(i.pc) && k < |i.events|
    ensures i.events[k].Active? && (k == 0 <==> i.events[k] == Active(0))
  {
  }

  /** What the Actives of any incarnation say: the first has count 0, and the k-th after it carries the attempt
      number of the k-th restart that worked. Each such restart came right after a back-off of 2^(attempt-1)
      seconds, and without a reset of the count the numbers go up. */
  lemma ActivesCarryTheirAttempts(run: seq<Action>, r: Ref)
    requires Legal(INIT, run) && r in Exec(INIT, run).incs
    ensures var i := Exec(INIT, run).incs[r];
            && (Registered(i.pc) && !BeforeAnnouncement(i.pc) ==> i.events == RunTrace(Announced(i.pc, i.restarts)))
            && (forall k :: 0 <= k < |i.restarts| ==>
                  1 <= i.restarts[k].attempt <= 5 && i.restarts[k].slept == Pow2(i.restarts[k].attempt - 1))
            && (i.resets == 0 ==>
                  forall j, k :: 0 <= j < k < |i.restarts| ==> i.restarts[j].attempt < i.restarts[k].attempt)
  {
    InvRun(INIT, run);
    RestartFacts(Exec(INIT, run).incs[r]);
  }

  lemma RestartFacts(i: Inc)
    requires LocalOk(i)
    ensures Registered(i.pc) && !BeforeAnnouncement(i.pc) ==> i.events == RunTrace(Announced(i.pc, i.restarts))
    ensures forall k :: 0 <= k < |i.restarts| ==>
              1 <= i.restarts[k].attempt <= 5 && i.restarts[k].slept == Pow2(i.restarts[k].attempt - 1)
    ensures i.resets == 0 ==> Increasing(i.restarts)
  {
  }

  /** Every back-off is followed by one cmd.Start, and a child is announced under a stable timer of its own,
      which is stopped when the child's exit is seen. */
  lemma BackoffsAndTimers(run: seq<Action>, r: Ref)
    requires Legal(INIT, run) && r in Exec(INIT, run).incs
    ensures var i := Exec(INIT, run).incs[r];
            && i.naps == i.tries + (if i.pc.Restarting? then 1 else 0)
            && (i.pc.Announcing? || i.pc.Reannouncing? ==> i.timerArmed || i.fired)
            && (i.timerArmed ==> i.pc.Announcing? || i.pc.Reannouncing? || i.pc.Watching? || i.pc.Exited?)
  {
    InvRun(INIT, run);
  }

  /** Restarts are bounded: without a stable period at most 5 back-offs of 1, 2, 4, ... seconds, 31 in
      all; each stable period allows as many again. */
  lemma RestartsAreBounded(run: seq<Action>, r: Ref)
    requires Legal(INIT, run) && r in Exec(INIT, run).incs
    ensures var i := Exec(INIT, run).incs[r];
            && i.naps <= MAX_RESTART_ATTEMPTS * (i.resets + 1)
            && i.slept <= 31 * (i.resets + 1)
            && (i.resets == 0 && i.pc == Done(ErroredRun) ==> i.naps == MAX_RESTART_ATTEMPTS && i.slept == 31)
  {
    InvRun(INIT, run);
    var i := Exec(INIT, run).incs[r];
    NapsBound(i.pc, i.restartCount, i.resets, i.naps, i.slept);
    if i.resets == 0 && i.pc == Done(ErroredRun) { ErroredMeansSpent(run, r); }
  }

  lemma NapsBound(pc: Pc, n: int, resets: nat, naps: nat, slept: int)
    requires CountsOk(pc, n, resets) && NapsOk(pc, n, resets, naps, slept)
    ensures naps <= MAX_RESTART_ATTEMPTS * (resets + 1) && slept <= 31 * (resets + 1)
    ensures resets == 0 && n > MAX_RESTART_ATTEMPTS && pc == Done(ErroredRun) ==>
              naps == MAX_RESTART_ATTEMPTS && slept == 31
  {
    FullBackoffIs();
    TotalBackoffMonotone(Capped(n), MAX_RESTART_ATTEMPTS);
  }

  /** An errored run without a stable period has used up its count. */
  ghost predicate SpentOk(s: State) {
    forall r :: r in s.incs && s.incs[r].resets == 0 && OutOfRestarts(s.incs[r].pc) ==>
      s.incs[r].restartCount > MAX_RESTART_ATTEMPTS
  }

  lemma SpentStep(s: State, a: Action)
    requires LocalsOk(s) && SpentOk(s) && Enabled(s, a)
    ensures SpentOk(Apply(s, a))
  {
    if a.Adv? { SpentAdvance(s.incs[a.r], a.ok, s.nextChild); }
  }

  lemma SpentAdvance(i: Inc, ok: bool, born: Child)
    requires CountsOk(i.pc, i.restartCount, i.resets) && !i.pc.Done?
    requires i.resets == 0 && OutOfRestarts(i.pc) ==> i.restartCount > MAX_RESTART_ATTEMPTS
    ensures var j := Advance(i, ok, born);
            j.resets == 0 && OutOfRestarts(j.pc) ==> j.restartCount > MAX_RESTART_ATTEMPTS
  {
  }

  lemma {:induction false} SpentRun(s: State, run: seq<Action>)
    requires Inv(s) && SpentOk(s) && Legal(s, run)
    ensures SpentOk(Exec(s, run))
    decreases |run|
  {
    if run != [] {
      InvStep(s, run[0]);
      SpentStep(s, run[0]);
      SpentRun(Apply(s, run[0]), run[1..]);
    }
  }

  lemma ErroredMeansSpent(run: seq<Action>, r: Ref)
    requires Legal(INIT, run) && r in Exec(INIT, run).incs
    requires Exec(INIT, run).incs[r].resets == 0 && Exec(INIT, run).incs[r].pc == Done(ErroredRun)
    ensures Exec(INIT, run).incs[r].restartCount > MAX_RESTART_ATTEMPTS
  {
    SpentRun(INIT, run);
  }

  /** How often r's stable timer fired. */
  function Fires(run: seq<Action>, r: Ref): nat {
    if run == [] then 0 else (if run[0] == TimerFire(r) then 1 else 0) + Fires(run[1..], r)
  }

  function Periods(s: State, r: Ref): nat {
    if r in s.incs then s.incs[r].resets + s.incs[r].lateFires else 0
  }

  lemma PeriodsStep(s: State, a: Action, r: Ref)
    requires FreshOk(s) && Enabled(s, a)
    ensures Periods(Apply(s, a), r) == Periods(s, r) + (if a == TimerFire(r) then 1 else 0)
  {
  }

  lemma {:induction false} PeriodsFrom(s: State, run: seq<Action>, r: Ref)
    requires Inv(s) && Legal(s, run)
    ensures Periods(Exec(s, run), r) == Periods(s, r) + Fires(run, r)
    decreases |run|
  {
    if run != [] {
      InvStep(s, run[0]);
      PeriodsStep(s, run[0], r);
      PeriodsFrom(Apply(s, run[0]), run[1..], r);
    }
  }

  /** Every firing of the stable timer owes one reset, which can be taken at any time and brings the count
      to zero; and a child's timer fires at most once. */
  lemma EveryFiringResets(run: seq<Action>, r: Ref)
    requires Legal(INIT, run) && r in Exec(INIT, run).incs
    ensures var s := Exec(INIT, run);
            var i := s.incs[r];
            && i.resets + i.lateFires == Fires(run, r) <= |i.restarts| + 1
            && (i.lateFires > 0 <==> Enabled(s, ResetRun(r)))
            && (i.lateFires > 0 ==>
                  Apply(s, ResetRun(r)).incs[r].restartCount == 0
                  && Apply(s, ResetRun(r)).incs[r].resets == i.resets + 1)
  {
    InvRun(INIT, run);
    PeriodsFrom(INIT, run, r);
    var s := Exec(INIT, run);
    PeriodsBound(s.incs[r]);
    ResetAt(s, r);
  }

  lemma PeriodsBound(i: Inc)
    requires LocalOk(i)
    ensures i.resets + i.lateFires <= |i.restarts| + 1
  {
  }

  lemma ResetAt(s: State, r: Ref)
    requires r in s.incs
    ensures s.incs[r].lateFires > 0 <==> Enabled(s, ResetRun(r))
    ensures Enabled(s, ResetRun(r)) ==>
              var j := Apply(s, ResetRun(r)).incs[r]; j.restartCount == 0 && j.resets == s.incs[r].resets + 1
  {
  }

  /** Termination: the goroutine takes at most 86 steps, and 60 more for every stable period, ... */
  lemma StepsAreBounded(run: seq<Action>, r: Ref)
    requires Legal(INIT, run) && r in Exec(INIT, run).incs
    ensures var i := Exec(INIT, run).incs[r]; i.steps <= 86 + 60 * i.resets
  {
    InvRun(INIT, run);
    var i := Exec(INIT, run).incs[r];
    assert Potential(i.pc, i.restartCount) >= 0 by { assert i.restartCount <= 6; }
  }

  /** ... and until it is done, only a running child can make it wait. */
  lemma OnlyTheChildHoldsItUp(run: seq<Action>, r: Ref, ok: bool)
    requires Legal(INIT, run) && r in Exec(INIT, run).incs && !Exec(INIT, run).incs[r].pc.Done?
    ensures var s := Exec(INIT, run);
            Enabled(s, Adv(r, ok)) <==>
            !(s.incs[r].pc.Watching? && s.incs[r].cmd.Some? && s.incs[r].cmd.value in s.live)
  {
    InvRun(INIT, run);
  }

  /** After Stop has set the flag at most one more child is started. */
  lemma AtMostOneStartAfterStop(run: seq<Action>, r: Ref)
    requires Legal(INIT, run) && r in Exec(INIT, run).incs
    ensures Exec(INIT, run).incs[r].lateSpawns <= 1
  {
    InvRun(INIT, run);
  }

  /** When that happens: only if Stop came between a reading of the flag and the cmd.Start after it. Once
      the goroutine has left that stretch, such a Stop has been followed by one cmd.Start, and the child
      was started exactly if that call worked; any other Stop has been followed by none. */
  lemma StartAfterStopIff(run: seq<Action>, r: Ref)
    requires Legal(INIT, run) && r in Exec(INIT, run).incs
    ensures var i := Exec(INIT, run).incs[r];
            && (i.stopRequested <==> i.asked.Asked?)
            && (i.lateSpawns > 0 ==> i.stopRequested && InWindow(i.asked) && i.asked.start == Some(true))
            && (i.stopRequested && !MaySpawn(i.pc) ==>
                  && (InWindow(i.asked) <==> i.asked.start.Some?)
                  && (i.lateSpawns == 1 <==> InWindow(i.asked) && i.asked.start == Some(true)))
            && (i.stopRequested && !InWindow(i.asked) ==> i.lateSpawns == 0 && (MaySpawn(i.pc) ==> i.asked.start.None?))
  {
    InvRun(INIT, run);
    var i := Exec(INIT, run).incs[r];
    LateStart(i.pc, i.restartCount, i.lateSpawns, i.asked);
  }

  lemma LateStart(pc: Pc, n: int, late: nat, asked: StopHistory)
    requires LateOk(pc, late, asked) && LimitOk(pc, n, asked)
    ensures late > 0 ==> InWindow(asked) && asked.start == Some(true)
    ensures asked.Asked? && !InWindow(asked) ==> late == 0
  {
  }

  /** Everybody's children are numbered below the next one. */
  ghost predicate SignalsOk(s: State) {
    forall r :: r in s.incs ==> SignalOk(s.incs[r].pc, s.incs[r].cmd, s.incs[r].asked, s.nextChild)
  }

  lemma SignalsStep(s: State, a: Action)
    requires LocalsOk(s) && SignalsOk(s) && Enabled(s, a)
    ensures SignalsOk(Apply(s, a))
  {
    if a.Adv? {
      AdvanceSignal(s.incs[a.r], a.ok, s.nextChild);
      SignalsPut(s, Apply(s, a), a.r);
    } else if a.StartCall? {
      if a.domain !in s.procs { SignalsPut(s, Apply(s, a), s.nextRef); }
    } else if a.TimerFire? || a.ResetRun? || a.StopFlag? {
      SignalsTouch(s, a);
    }
  }

  lemma SignalsPut(s: State, t: State, r: Ref)
    requires SignalsOk(s) && r in t.incs && t.incs == s.incs[r := t.incs[r]] && s.nextChild <= t.nextChild
    requires SignalOk(t.incs[r].pc, t.incs[r].cmd, t.incs[r].asked, t.nextChild)
    ensures SignalsOk(t)
  {
  }

  lemma SignalsTouch(s: State, a: Action)
    requires LocalsOk(s) && SignalsOk(s) && Enabled(s, a) && (a.TimerFire? || a.ResetRun? || a.StopFlag?)
    ensures SignalsOk(Apply(s, a))
  {
    if a.StopFlag? { FlagSignal(s.incs[a.r], s.nextChild); }
    SignalsPut(s, Apply(s, a), a.r);
  }

  lemma FlagSignal(i: Inc, next: Child)
    requires LocalOk(i) && SignalOk(i.pc, i.cmd, i.asked, next)
    ensures SignalOk(i.pc, i.cmd, Flag(i).asked, next)
  {
  }

  lemma {:induction false} SignalsRun(s: State, run: seq<Action>)
    requires Inv(s) && SignalsOk(s) && Legal(s, run)
    ensures SignalsOk(Exec(s, run))
    decreases |run|
  {
    if run != [] {
      InvStep(s, run[0]);
      SignalsStep(s, run[0]);
      SignalsRun(Apply(s, run[0]), run[1..]);
    }
  }

  /** The child that runs after a Stop is the one that Stop signalled, unless it was started after Stop or was
      started before and not yet published as mp.cmd. Such a child gets no signal from that Stop and, unless
      it is the one that Start itself kills, runs until it exits by itself. */
  lemma StopSignalsIff(run: seq<Action>, c: Child)
    requires Legal(INIT, run) && c in Exec(INIT, run).live
    ensures var s := Exec(INIT, run);
            && s.live[c] in s.incs
            && (s.incs[s.live[c]].stopRequested ==>
                  && s.incs[s.live[c]].asked.Asked?
                  && (s.incs[s.live[c]].asked.signalled == Some(c) <==> !Unpublished(s.incs[s.live[c]].asked)))
  {
    InvRun(INIT, run);
    SignalsRun(INIT, run);
    LiveSignalledIff(Exec(INIT, run), c);
  }

  lemma LiveSignalledIff(s: State, c: Child)
    requires LiveOk(s) && LocalsOk(s) && SignalsOk(s) && c in s.live
    ensures s.live[c] in s.incs
    ensures var i := s.incs[s.live[c]];
            i.stopRequested ==> i.asked.Asked? && (i.asked.signalled == Some(c) <==> !Unpublished(i.asked))
  {
    if s.incs[s.live[c]].stopRequested { SignalledIff(s.incs[s.live[c]], c, s.nextChild); }
  }

  lemma SignalledIff(i: Inc, c: Child, next: Child)
    requires LocalOk(i) && SignalOk(i.pc, i.cmd, i.asked, next) && Current(i) == Some(c) && i.stopRequested
    ensures i.asked.Asked? && (i.asked.signalled == Some(c) <==> !Unpublished(i.asked))
  {
  }

  /** How a finished run ended, by where Stop met it. It ended in an error exactly if Stop came too late;
      it failed or was killed at birth exactly if Stop met the first Start; in every other case it was
      stopped. A run nobody asked to stop failed to start or ran out of restarts. */
  lemma StopDecides(run: seq<Action>, r: Ref)
    requires Legal(INIT, run) && r in Exec(INIT, run).incs && Exec(INIT, run).incs[r].pc.Done?
    ensures var i := Exec(INIT, run).incs[r];
            var a := i.asked;
            && (i.stopRequested <==> a.Asked?)
            && (!i.stopRequested ==> i.pc.how.FailedStart? || i.pc.how.ErroredRun?)
            && (i.stopRequested ==>
                  && (i.pc.how.ErroredRun? <==> TooLate(a))
                  && (i.pc.how.FailedStart? <==> NeverBorn(a.pc) || (a.pc.Starting? && a.start == Some(false)))
                  && (i.pc.how.KilledAtStart? <==> a.pc.Spawned? || (a.pc.Starting? && a.start == Some(true))))
  {
    InvRun(INIT, run);
  }

  // ---- order across incarnations --------------------------------------------------------------------

  function Project(log: seq<(Ref, Event)>, r: Ref): seq<Event> {
    if log == [] then []
    else Project(log[..|log| - 1], r) + (if log[|log| - 1].0 == r then [log[|log| - 1].1] else [])
  }

  ghost predicate LogOk(s: State) {
    && (forall r :: r in s.incs ==> s.incs[r].events == Project(s.log, r))
    && (forall k :: 0 <= k < |s.log| ==> s.log[k].0 in s.incs)
  }

  lemma ProjectSnoc(log: seq<(Ref, Event)>, r: Ref, e: Event, q: Ref)
    ensures Project(log + [(r, e)], q) == Project(log, q) + (if q == r then [e] else [])
  {
    assert (log + [(r, e)])[..|log|] == log;
  }

  lemma {:induction false} ProjectAbsent(log: seq<(Ref, Event)>, r: Ref)
    requires forall k :: 0 <= k < |log| ==> log[k].0 != r
    ensures Project(log, r) == []
  {
    if log != [] { ProjectAbsent(log[..|log| - 1], r); }
  }

  lemma EmitsAtMostOne(pc: Pc)
    ensures |Emits(pc)| <= 1
  {
  }

  lemma LogAdvance(s: State, r: Ref, ok: bool)
    requires LogOk(s) && Enabled(s, Adv(r, ok))
    ensures LogOk(Apply(s, Adv(r, ok)))
  {
    var t := Apply(s, Adv(r, ok));
    var emitted := Emits(s.incs[r].pc);
    EmitsAtMostOne(s.incs[r].pc);
    if emitted == [] {
      assert t.log == s.log;
    } else {
      assert emitted[1..] == [] && Tagged(r, emitted[1..]) == [];
      assert Tagged(r, emitted) == [(r, emitted[0])] + [];
      assert t.log == s.log + [(r, emitted[0])];
      forall q | q in t.incs ensures t.incs[q].events == Project(t.log, q) {
        ProjectSnoc(s.log, r, emitted[0], q);
      }
    }
  }

  lemma LogStep(s: State, a: Action)
    requires LogOk(s) && FreshOk(s) && Enabled(s, a)
    ensures LogOk(Apply(s, a))
  {
    if a.Adv? {
      LogAdvance(s, a.r, a.ok);
    } else if a.StartCall? && a.domain !in s.procs {
      ProjectAbsent(s.log, s.nextRef);
    }
  }

  lemma {:induction false} LogRun(s: State, run: seq<Action>)
    requires Inv(s) && LogOk(s) && Legal(s, run)
    ensures LogOk(Exec(s, run))
    decreases |run|
  {
    if run != [] {
      InvStep(s, run[0]);
      LogStep(s, run[0]);
      LogRun(Apply(s, run[0]), run[1..]);
    }
  }

  /** Nothing but one terminal event can still come. */
  ghost predicate OnlyTerminalLeft(i: Inc, ok: bool, born: Child) {
    || i.pc.Done?
    || (|Emits(i.pc)| == 1 && !Emits(i.pc)[0].Active? && NextPc(i.pc, i.stopRequested, i.restartCount, ok, born).Done?)
  }

  lemma UnregisteredFinishes(i: Inc, ok: bool, born: Child)
    requires !Registered(i.pc)
    ensures OnlyTerminalLeft(i, ok, born)
  {
  }

  /** Each incarnation's events appear in the common log in its own order; once a newer incarnation of
      the domain exists, the older one has at most its terminal event still to come. */
  lemma OldIncarnationsOnlyFinish(run: seq<Action>, q: Ref, r: Ref, ok: bool, born: Child)
    requires Legal(INIT, run) && q in Exec(INIT, run).incs && r in Exec(INIT, run).incs && q < r
    requires Exec(INIT, run).incs[q].domain == Exec(INIT, run).incs[r].domain
    ensures Exec(INIT, run).incs[q].events == Project(Exec(INIT, run).log, q)
    ensures OnlyTerminalLeft(Exec(INIT, run).incs[q], ok, born)
  {
    InvRun(INIT, run);
    LogRun(INIT, run);
    var s := Exec(INIT, run);
    NotRegistered(s, q, r);
    UnregisteredFinishes(s.incs[q], ok, born);
  }

  lemma NotRegistered(s: State, q: Ref, r: Ref)
    requires SuccessionOk(s) && q in s.incs && r in s.incs && q < r && s.incs[q].domain == s.incs[r].domain
    ensures !Registered(s.incs[q].pc)
  {
  }
}
