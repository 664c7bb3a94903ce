/** The process supervisor as a step machine. One incarnation is one managedProcess: the goroutine of the
    Start call that made it, later its supervise loop. Children, timers and Stop calls interleave with it
    at every lock boundary. */
module Supervisor {
  import opened Prelude

  type Ref = nat
  type Child = nat

  const MAX_RESTART_ATTEMPTS := 5

  datatype Event = Active(count: int) | Stopped | Error(count: int)

  /** How an incarnation ended: cmd.Start failed; stopped while starting; stopped; out of restarts. */
  datatype Outcome = FailedStart | KilledAtStart | StoppedRun | ErroredRun

  /** What the incarnation's goroutine does next. */
  datatype Pc =
    | Starting                          // registered; cmd.Start
    | StartFailed                       // delete the entry
    | Spawned(child: Child)             // read stopRequested, publish cmd
    | Killing(child: Child)             // Kill, Wait
    | KilledDeleting                    // delete the entry
    | KilledEmitting                    // emit Stopped
    | Arming                            // arm the stable timer
    | Announcing                        // emit Active, start supervise
    | Watching                          // cmd.Wait
    | Exited                            // stop the timer, read stopRequested
    | Deciding(stop: bool)              // act on the flag that was read
    | Counted(attempt: int)             // compare with the limit, back off
    | Restarting(attempt: int)          // cmd.Start
    | Respawned(child: Child, attempt: int)  // publish cmd
    | Rearming(attempt: int)            // arm the stable timer
    | Reannouncing(attempt: int)        // emit Active
    | StopDeleting                      // delete the entry
    | StopEmitting                      // emit Stopped
    | ErrDeleting                       // delete the entry
    | ErrEmitting                       // emit Error
    | Done(how: Outcome)

  /** History of the first Stop that set the flag: where the goroutine and its count were at that moment,
      which child Stop signalled, whether the count was reset between then and the step that acts on an
      older reading of the flag, and whether the next cmd.Start worked. */
  datatype StopHistory =
    | Unasked
    | Asked(pc: Pc, count: int, signalled: Option<Child>, spared: bool, start: Option<bool>)

  /** A restart whose cmd.Start worked: the attempt, and the seconds slept just before it. */
  datatype Restart = Restart(attempt: int, slept: int)

  /** managedProcess, with the goroutine's position and a history of what it did: events emitted, back-offs
      taken (how many, how many seconds, the last one), restarts that worked, whether the timer armed last
      has fired, timer resets, children started after the stop flag was set, steps taken, and how Stop
      met it. */
  datatype Inc = Inc(
    domain: string, pc: Pc,
    cmd: Option<Child>, stopRequested: bool, restartCount: int, timerArmed: bool, lateFires: nat,
    events: seq<Event>, naps: nat, slept: int, lastNap: int, tries: nat, restarts: seq<Restart>, fired: bool,
    resets: nat, lateSpawns: nat, steps: nat, asked: StopHistory)

  function NewInc(domain: string): Inc {
    Inc(domain, Starting, None, false, 0, false, 0, [], 0, 0, 0, 0, [], false, 0, 0, 0, Unasked)
  }

  function Pow2(n: nat): (r: nat)
    ensures r >= 1
  {
    if n == 0 then 1 else 2 * Pow2(n - 1)
  }

  // ---- one incarnation -------------------------------------------------------------------------

  /** 1<<(attempt-1) seconds */
  function Backoff(attempt: int): nat {
    if attempt >= 1 then Pow2(attempt - 1) else 0
  }

  /** The seconds slept before restart attempts 1 to n, one after the other. */
  function TotalBackoff(n: nat): (r: nat) {
    if n == 0 then 0 else TotalBackoff(n - 1) + Backoff(n)
  }

  /** For any limit n: 2^n - 1 seconds. */
  lemma {:induction false} TotalBackoffIs(n: nat)
    ensures TotalBackoff(n) == Pow2(n) - 1
  {
    if n > 0 { TotalBackoffIs(n - 1); }
  }

  lemma {:induction false} TotalBackoffMonotone(a: nat, b: nat)
    requires a <= b
    ensures TotalBackoff(a) <= TotalBackoff(b)
    decreases b
  {
    if a < b { TotalBackoffMonotone(a, b - 1); }
  }

  /** Where the goroutine goes. ok: whether a cmd.Start succeeds; born: the child it then starts. */
  function NextPc(pc: Pc, stopRequested: bool, restartCount: int, ok: bool, born: Child): Pc {
    match pc
    case Starting => if ok then Spawned(born) else StartFailed
    case StartFailed => Done(FailedStart)
    case Spawned(c) => if stopRequested then Killing(c) else Arming
    case Killing(_) => KilledDeleting
    case KilledDeleting => KilledEmitting
    case KilledEmitting => Done(KilledAtStart)
    case Arming => Announcing
    case Announcing => Watching
    case Watching => Exited
    case Exited => Deciding(stopRequested)
    case Deciding(stop) => if stop then StopDeleting else Counted(restartCount + 1)
    case Counted(attempt) => if attempt > MAX_RESTART_ATTEMPTS then ErrDeleting else Restarting(attempt)
    case Restarting(attempt) => if ok then Respawned(born, attempt) else Watching
    case Respawned(_, attempt) => Rearming(attempt)
    case Rearming(attempt) => Reannouncing(attempt)
    case Reannouncing(_) => Watching
    case StopDeleting => StopEmitting
    case StopEmitting => Done(StoppedRun)
    case ErrDeleting => ErrEmitting
    case ErrEmitting => Done(ErroredRun)
    case Done(how) => Done(how)
  }

  /** The event a step emits, if any. */
  function Emits(pc: Pc): seq<Event> {
    match pc
    case KilledEmitting => [Stopped]
    case Announcing => [Active(0)]
    case Reannouncing(attempt) => [Active(attempt)]
    case StopEmitting => [Stopped]
    case ErrEmitting => [Error(MAX_RESTART_ATTEMPTS)]
    case _ => []
  }

  /** The step that decides to restart counts up. */
  function NextCount(pc: Pc, restartCount: int): int {
    if pc == Deciding(false) then restartCount + 1 else restartCount
  }

  /** The steps that publish a child as mp.cmd. */
  function NextCmd(pc: Pc, stopRequested: bool, cmd: Option<Child>): Option<Child> {
    match pc
    case Spawned(c) => if stopRequested then cmd else Some(c)
    case Respawned(c, _) => Some(c)
    case _ => cmd
  }

  function NextTimer(pc: Pc, armed: bool): bool {
    if pc.Arming? || pc.Rearming? then true else if pc.Exited? then false else armed
  }

  /** The two calls of cmd.Start. */
  predicate Tries(pc: Pc) { pc.Starting? || pc.Restarting? }

  predicate Spawns(pc: Pc, ok: bool) { ok && Tries(pc) }

  function NextAsked(pc: Pc, asked: StopHistory, ok: bool): StopHistory {
    if asked.Asked? && Tries(pc) then asked.(start := Some(ok)) else asked
  }

  /** The back-off that has been counted but not slept yet. */
  predicate NapDue(pc: Pc) { pc.Counted? && pc.attempt <= MAX_RESTART_ATTEMPTS }

  function NextRestarts(pc: Pc, restarts: seq<Restart>, lastNap: int, ok: bool): seq<Restart> {
    if pc.Restarting? && ok then restarts + [Restart(pc.attempt, lastNap)] else restarts
  }

  /** One step of the incarnation's goroutine. */
  function Advance(i: Inc, ok: bool, born: Child): Inc {
    i.(pc := NextPc(i.pc, i.stopRequested, i.restartCount, ok, born),
       cmd := NextCmd(i.pc, i.stopRequested, i.cmd),
       restartCount := NextCount(i.pc, i.restartCount),
       timerArmed := NextTimer(i.pc, i.timerArmed),
       events := i.events + Emits(i.pc),
       naps := i.naps + (if NapDue(i.pc) then 1 else 0),
       slept := i.slept + (if NapDue(i.pc) then Backoff(i.pc.attempt) else 0),
       lastNap := if NapDue(i.pc) then Backoff(i.pc.attempt) else i.lastNap,
       tries := i.tries + (if i.pc.Restarting? then 1 else 0),
       restarts := NextRestarts(i.pc, i.restarts, i.lastNap, ok),
       fired := i.fired && !i.pc.Arming? && !i.pc.Rearming?,
       lateSpawns := i.lateSpawns + (if Spawns(i.pc, ok) && i.stopRequested then 1 else 0),
       steps := i.steps + 1,
       asked := NextAsked(i.pc, i.asked, ok))
  }

  /** The timer fires; its callback waits for mp.mu. */
  function Fire(i: Inc): Inc { i.(timerArmed := false, fired := true, lateFires := i.lateFires + 1) }

  /** The callback runs. */
  function Reset(i: Inc): Inc
    requires i.lateFires > 0
  {
    i.(lateFires := i.lateFires - 1, restartCount := 0, resets := i.resets + 1,
       asked := if i.asked.Asked? && i.pc == Deciding(false) then i.asked.(spared := true) else i.asked)
  }

  /** Past the limit there is no way back. */
  predicate OutOfRestarts(pc: Pc) {
    (pc.Counted? && pc.attempt > MAX_RESTART_ATTEMPTS) || pc.ErrDeleting? || pc.ErrEmitting? || pc == Done(ErroredRun)
  }

  /** Still able to start a child without reading the flag again. */
  predicate MaySpawn(pc: Pc) {
    pc.Starting? || pc == Deciding(false) || pc.Counted? || pc.Restarting?
  }

  /** Stop sets the flag. */
  function Flag(i: Inc): Inc {
    if i.stopRequested then i else i.(stopRequested := true, asked := Asked(i.pc, i.restartCount, i.cmd, false, None))
  }

  /** Stop came too late to keep the run from ending in an error: the limit was already exceeded, or the
      flag had been read as false with the count at the limit and nothing reset it before it was counted
      up. */
  predicate TooLate(a: StopHistory) {
    a.Asked? && (OutOfRestarts(a.pc) || (a.pc == Deciding(false) && a.count >= MAX_RESTART_ATTEMPTS && !a.spared))
  }

  /** Stop came between a reading of the flag and the cmd.Start that follows it. */
  predicate InWindow(a: StopHistory) { a.Asked? && MaySpawn(a.pc) && !TooLate(a) }

  // ---- what every incarnation keeps ----------------------------------------------------------------

  predicate BeforeAnnouncement(pc: Pc) {
    || pc.Starting? || pc.StartFailed? || pc.Spawned? || pc.Killing? || pc.KilledDeleting? || pc.KilledEmitting?
    || pc.Arming? || pc.Announcing? || pc == Done(FailedStart)
  }

  /** The events of restarts, in order. */
  function Actives(restarts: seq<Restart>): (r: seq<Event>)
    ensures |r| == |restarts|
    ensures forall k :: 0 <= k < |r| ==> r[k] == Active(restarts[k].attempt)
  {
    seq(|restarts|, k requires 0 <= k < |restarts| => Active(restarts[k].attempt))
  }

  /** The last restart has not been announced yet. */
  predicate Unannounced(pc: Pc) { pc.Respawned? || pc.Rearming? || pc.Reannouncing? }

  function Announced(pc: Pc, restarts: seq<Restart>): seq<Restart> {
    if Unannounced(pc) && restarts != [] then restarts[..|restarts| - 1] else restarts
  }

  /** Active with count 0, then one Active for each restart that worked, with its attempt. */
  function RunTrace(restarts: seq<Restart>): seq<Event> { [Active(0)] + Actives(restarts) }

  ghost predicate TraceOk(pc: Pc, events: seq<Event>, restarts: seq<Restart>) {
    if BeforeAnnouncement(pc) then events == []
    else if pc == Done(KilledAtStart) then events == [Stopped]
    else if pc == Done(StoppedRun) then events == RunTrace(restarts) + [Stopped]
    else if pc == Done(ErroredRun) then events == RunTrace(restarts) + [Error(MAX_RESTART_ATTEMPTS)]
    else events == RunTrace(Announced(pc, restarts))
  }

  /** Each restart that worked came right after the back-off of its attempt, ... */
  ghost predicate RestartsOk(pc: Pc, restarts: seq<Restart>, lastNap: int) {
    && (forall r :: r in restarts ==> 1 <= r.attempt <= MAX_RESTART_ATTEMPTS && r.slept == Pow2(r.attempt - 1))
    && (pc.Restarting? && pc.attempt >= 1 ==> lastNap == Pow2(pc.attempt - 1))
    && (Unannounced(pc) ==> restarts != [] && restarts[|restarts| - 1].attempt == pc.attempt)
    && (BeforeAnnouncement(pc) || pc == Done(KilledAtStart) ==> restarts == [])
  }

  ghost predicate Increasing(restarts: seq<Restart>) {
    forall j, k :: 0 <= j < k < |restarts| ==> restarts[j].attempt < restarts[k].attempt
  }

  /** ... and without a reset the attempts count up. */
  ghost predicate ClimbOk(pc: Pc, restarts: seq<Restart>, n: int, resets: nat) {
    resets == 0 ==>
      && Increasing(restarts)
      && (forall r :: r in restarts ==> r.attempt <= n)
      && (pc.Counted? || pc.Restarting? ==>
            pc.attempt == n && forall r :: r in restarts ==> r.attempt < n)
  }

  /** Every back-off is followed by one cmd.Start. */
  ghost predicate TriesOk(pc: Pc, naps: nat, tries: nat) {
    naps == tries + (if pc.Restarting? then 1 else 0)
  }

  /** A child is announced under a running or expired timer of its own; once its exit has been seen and until
      the next child, none is running. */
  ghost predicate TimerOk(pc: Pc, armed: bool, fired: bool) {
    && (pc.Announcing? || pc.Reannouncing? ==> armed || fired)
    && (armed ==> !fired && (pc.Announcing? || pc.Reannouncing? || pc.Watching? || pc.Exited?))
  }

  /** Children whose timer has been armed: the first and every restarted one. */
  function Timed(pc: Pc, restarts: seq<Restart>): int {
    |restarts| + (if (BeforeAnnouncement(pc) && !pc.Announcing?) || pc.Respawned? || pc.Rearming? then 0 else 1)
  }

  /** Each of them has at most one stable period. */
  ghost predicate PeriodsOk(pc: Pc, restarts: seq<Restart>, armed: bool, resets: nat, lateFires: nat) {
    resets + lateFires + (if armed then 1 else 0) <= Timed(pc, restarts)
  }

  ghost predicate AttemptOk(pc: Pc) {
    match pc
    case Counted(attempt) => 1 <= attempt <= MAX_RESTART_ATTEMPTS + 1
    case Restarting(attempt) => 1 <= attempt <= MAX_RESTART_ATTEMPTS
    case Respawned(_, attempt) => 1 <= attempt <= MAX_RESTART_ATTEMPTS
    case Rearming(attempt) => 1 <= attempt <= MAX_RESTART_ATTEMPTS
    case Reannouncing(attempt) => 1 <= attempt <= MAX_RESTART_ATTEMPTS
    case _ => true
  }

  ghost predicate CountsOk(pc: Pc, restartCount: int, resets: nat) {
    && 0 <= restartCount <= MAX_RESTART_ATTEMPTS + 1
    && (restartCount > MAX_RESTART_ATTEMPTS ==> OutOfRestarts(pc))
    && AttemptOk(pc)
    && (pc.Counted? && resets == 0 ==> restartCount == pc.attempt)
  }

  function Capped(n: int): nat { if n < 0 then 0 else if n > MAX_RESTART_ATTEMPTS then MAX_RESTART_ATTEMPTS else n }

  const FULL_BACKOFF := TotalBackoff(MAX_RESTART_ATTEMPTS)

  ghost predicate NapsOk(pc: Pc, restartCount: int, resets: nat, naps: nat, slept: int) {
    var due := if NapDue(pc) then 1 else 0;
    var owed := if NapDue(pc) then Backoff(pc.attempt) else 0;
    && naps + due <= Capped(restartCount) + MAX_RESTART_ATTEMPTS * resets
    && slept + owed <= TotalBackoff(Capped(restartCount)) + FULL_BACKOFF * resets
    && (resets == 0 ==> naps + due == Capped(restartCount) && slept + owed == TotalBackoff(Capped(restartCount)))
  }

  /** On the way to a Stopped event. */
  predicate Stopping(pc: Pc) {
    || pc.Killing? || pc.KilledDeleting? || pc.KilledEmitting? || pc == Done(KilledAtStart)
    || pc == Deciding(true) || pc.StopDeleting? || pc.StopEmitting? || pc == Done(StoppedRun)
  }

  /** Where a run is that was never announced. */
  predicate BornDead(pc: Pc) {
    pc.Spawned? || pc.Killing? || pc.KilledDeleting? || pc.KilledEmitting? || pc == Done(KilledAtStart)
  }

  predicate NeverBorn(pc: Pc) { pc.StartFailed? || pc == Done(FailedStart) }

  /** The flag was read as true, or nobody has set it. */
  ghost predicate FlagOk(pc: Pc, stopRequested: bool, asked: StopHistory) {
    && (stopRequested <==> asked.Asked?)
    && (Stopping(pc) ==> stopRequested)
  }

  /** After Stop one cmd.Start follows if it came in the window, otherwise none. */
  ghost predicate LateOk(pc: Pc, lateSpawns: nat, asked: StopHistory) {
    && lateSpawns == (if asked.Asked? && asked.start == Some(true) then 1 else 0)
    && (asked.Asked? ==>
          if MaySpawn(pc) then asked.start.None? && MaySpawn(asked.pc) else (asked.start.Some? <==> InWindow(asked)))
  }

  /** The count the next step will see, and which runs are bound for the error exit. */
  ghost predicate LimitOk(pc: Pc, n: int, asked: StopHistory) {
    asked.Asked? ==>
      && (pc == Deciding(false) ==> asked.pc == pc && n == if asked.spared then 0 else asked.count)
      && (asked.spared ==> asked.pc == Deciding(false))
      && (pc != Deciding(false) ==> (OutOfRestarts(pc) <==> TooLate(asked)))
  }

  /** Which runs were stopped while their first Start was still under way. */
  ghost predicate BirthOk(pc: Pc, asked: StopHistory) {
    asked.Asked? ==>
      && (pc.Starting? ==> asked.pc.Starting?)
      && (!pc.Starting? ==>
            && (asked.pc.Starting? ==> asked.start.Some?)
            && (NeverBorn(pc) <==> NeverBorn(asked.pc) || (asked.pc.Starting? && asked.start == Some(false)))
            && (BornDead(pc) <==> asked.pc.Spawned? || (asked.pc.Starting? && asked.start == Some(true))))
  }

  ghost predicate StopOk(pc: Pc, n: int, stopRequested: bool, lateSpawns: nat, asked: StopHistory) {
    FlagOk(pc, stopRequested, asked) && LateOk(pc, lateSpawns, asked) && LimitOk(pc, n, asked) && BirthOk(pc, asked)
  }

  function Rank(pc: Pc): nat {
    match pc
    case Starting => 16
    case StartFailed => 3
    case Spawned(_) => 15
    case Killing(_) => 5
    case KilledDeleting => 3
    case KilledEmitting => 2
    case Arming => 14
    case Announcing => 13
    case Watching => 8
    case Exited => 7
    case Deciding(_) => 6
    case Counted(_) => 14
    case Restarting(_) => 13
    case Respawned(_, _) => 12
    case Rearming(_) => 11
    case Reannouncing(_) => 10
    case StopDeleting => 3
    case StopEmitting => 2
    case ErrDeleting => 3
    case ErrEmitting => 2
    case Done(_) => 0
  }

  /** What is left to do: restarts first, position second. */
  function Potential(pc: Pc, restartCount: int): int {
    10 * (MAX_RESTART_ATTEMPTS + 2 - restartCount) + Rank(pc)
  }

  const FUEL := 10 * (MAX_RESTART_ATTEMPTS + 2) + 16
  const REFILL := 10 * (MAX_RESTART_ATTEMPTS + 1)

  ghost predicate StepsOk(pc: Pc, restartCount: int, resets: nat, steps: nat) {
    steps + Potential(pc, restartCount) <= FUEL + REFILL * resets
  }

  ghost predicate HistoryOk(i: Inc) {
    && TraceOk(i.pc, i.events, i.restarts)
    && RestartsOk(i.pc, i.restarts, i.lastNap) && ClimbOk(i.pc, i.restarts, i.restartCount, i.resets)
    && TriesOk(i.pc, i.naps, i.tries) && TimerOk(i.pc, i.timerArmed, i.fired)
    && PeriodsOk(i.pc, i.restarts, i.timerArmed, i.resets, i.lateFires)
  }

  ghost predicate LocalOk(i: Inc) {
    && HistoryOk(i)
    && CountsOk(i.pc, i.restartCount, i.resets)
    && NapsOk(i.pc, i.restartCount, i.resets, i.naps, i.slept)
    && StopOk(i.pc, i.restartCount, i.stopRequested, i.lateSpawns, i.asked)
    && StepsOk(i.pc, i.restartCount, i.resets, i.steps)
  }

  // ---- whom Stop signals ---------------------------------------------------------------------------

  /** Stop met a child that was not yet published as mp.cmd, or one was started after it. */
  predicate Unpublished(a: StopHistory) {
    a.Asked? && (a.pc.Spawned? || a.pc.Respawned? || a.start == Some(true))
  }

  /** The child started last, published or not. */
  function Newest(pc: Pc, cmd: Option<Child>): Option<Child> {
    match pc
    case Spawned(c) => Some(c)
    case Killing(c) => Some(c)
    case Respawned(c, _) => Some(c)
    case _ => cmd
  }

  predicate Below(c: Option<Child>, limit: nat) { c.Some? ==> c.value < limit }

  /** Children are numbered in the order they are started; next is the number of the next of all. */
  ghost predicate OrderOk(pc: Pc, cmd: Option<Child>, next: Child) {
    && Below(Newest(pc, cmd), next) && Below(cmd, next)
    && ((pc.Spawned? || pc.Killing? || pc.Respawned?) && Newest(pc, cmd).Some? ==> Below(cmd, Newest(pc, cmd).value))
    && (pc.Starting? || BornDead(pc) || NeverBorn(pc) ==> cmd.None?)
  }

  /** How the newest child relates to the one Stop signalled. */
  ghost predicate TargetOk(pc: Pc, cmd: Option<Child>, asked: StopHistory, next: Child) {
    asked.Asked? ==>
      && Below(asked.signalled, next)
      && (pc.Respawned? ==> Unpublished(asked))
      && (if Unpublished(asked) then Newest(pc, cmd).Some? ==> Below(asked.signalled, Newest(pc, cmd).value)
          else cmd == asked.signalled)
  }

  ghost predicate SignalOk(pc: Pc, cmd: Option<Child>, asked: StopHistory, next: Child) {
    OrderOk(pc, cmd, next) && TargetOk(pc, cmd, asked, next)
  }

  lemma AdvanceOrder(i: Inc, ok: bool, born: Child)
    requires OrderOk(i.pc, i.cmd, born) && FlagOk(i.pc, i.stopRequested, i.asked) && !i.pc.Done?
    ensures var j := Advance(i, ok, born); OrderOk(j.pc, j.cmd, if Spawns(i.pc, ok) then born + 1 else born)
  {
  }

  lemma AdvanceTarget(i: Inc, ok: bool, born: Child)
    requires OrderOk(i.pc, i.cmd, born) && TargetOk(i.pc, i.cmd, i.asked, born) && !i.pc.Done?
    requires FlagOk(i.pc, i.stopRequested, i.asked) && LateOk(i.pc, i.lateSpawns, i.asked) && BirthOk(i.pc, i.asked)
    ensures var j := Advance(i, ok, born); TargetOk(j.pc, j.cmd, j.asked, if Spawns(i.pc, ok) then born + 1 else born)
  {
  }

  lemma AdvanceSignal(i: Inc, ok: bool, born: Child)
    requires LocalOk(i) && !i.pc.Done? && SignalOk(i.pc, i.cmd, i.asked, born)
    ensures var j := Advance(i, ok, born); SignalOk(j.pc, j.cmd, j.asked, if Spawns(i.pc, ok) then born + 1 else born)
  {
    AdvanceOrder(i, ok, born);
    AdvanceTarget(i, ok, born);
  }

  lemma FullBackoffIs()
    ensures FULL_BACKOFF == 31
  {
    TotalBackoffIs(MAX_RESTART_ATTEMPTS);
    assert Pow2(1) == 2;
    assert Pow2(2) == 4;
    assert Pow2(3) == 8;
    assert Pow2(4) == 16;
  }

  /** Announcing the last restart completes the trace. */
  lemma AnnouncedLast(restarts: seq<Restart>)
    requires restarts != []
    ensures RunTrace(restarts[..|restarts| - 1]) + [Active(restarts[|restarts| - 1].attempt)] == RunTrace(restarts)
  {
  }

  lemma AdvanceTrace(pc: Pc, events: seq<Event>, restarts: seq<Restart>, lastNap: int, stop: bool, n: int,
                     ok: bool, born: Child)
    requires TraceOk(pc, events, restarts) && RestartsOk(pc, restarts, lastNap)
    ensures TraceOk(NextPc(pc, stop, n, ok, born), events + Emits(pc), NextRestarts(pc, restarts, lastNap, ok))
  {
    if Emits(pc) == [] {
      AdvanceSilently(pc, events, restarts, lastNap, stop, n, ok, born);
    } else if pc.Reannouncing? {
      AnnouncedLast(restarts);
    } else if pc.Announcing? {
      assert RunTrace([]) == [Active(0)] && [] + [Active(0)] == [Active(0)];
    } else {
      assert pc.KilledEmitting? ==> [] + [Stopped] == [Stopped];
    }
  }

  lemma AdvanceSilently(pc: Pc, events: seq<Event>, restarts: seq<Restart>, lastNap: int, stop: bool, n: int,
                        ok: bool, born: Child)
    requires TraceOk(pc, events, restarts) && RestartsOk(pc, restarts, lastNap) && Emits(pc) == []
    ensures TraceOk(NextPc(pc, stop, n, ok, born), events + Emits(pc), NextRestarts(pc, restarts, lastNap, ok))
  {
    assert events + [] == events;
    if pc.Restarting? { assert (restarts + [Restart(pc.attempt, lastNap)])[..|restarts|] == restarts; }
  }

  lemma AdvanceRestarts(pc: Pc, restarts: seq<Restart>, lastNap: int, stop: bool, n: int, resets: nat,
                        ok: bool, born: Child)
    requires RestartsOk(pc, restarts, lastNap) && CountsOk(pc, n, resets)
    ensures RestartsOk(NextPc(pc, stop, n, ok, born), NextRestarts(pc, restarts, lastNap, ok),
                       if NapDue(pc) then Backoff(pc.attempt) else lastNap)
  {
  }

  lemma AdvanceClimb(pc: Pc, restarts: seq<Restart>, lastNap: int, stop: bool, n: int, resets: nat,
                     ok: bool, born: Child)
    requires ClimbOk(pc, restarts, n, resets)
    ensures ClimbOk(NextPc(pc, stop, n, ok, born), NextRestarts(pc, restarts, lastNap, ok), NextCount(pc, n), resets)
  {
  }

  lemma AdvanceCounts(pc: Pc, n: int, resets: nat, stop: bool, ok: bool, born: Child)
    requires CountsOk(pc, n, resets)
    ensures CountsOk(NextPc(pc, stop, n, ok, born), NextCount(pc, n), resets)
  {
  }

  lemma AdvanceNaps(pc: Pc, n: int, resets: nat, naps: nat, slept: int, stop: bool, ok: bool, born: Child)
    requires CountsOk(pc, n, resets) && NapsOk(pc, n, resets, naps, slept)
    ensures NapsOk(NextPc(pc, stop, n, ok, born), NextCount(pc, n), resets,
                   naps + (if NapDue(pc) then 1 else 0), slept + (if NapDue(pc) then Backoff(pc.attempt) else 0))
  {
    if pc == Deciding(false) { CountNap(n, resets, naps, slept); }
  }

  /** Counting an attempt makes its back-off due. */
  lemma CountNap(n: int, resets: nat, naps: nat, slept: int)
    requires 0 <= n <= MAX_RESTART_ATTEMPTS && NapsOk(Deciding(false), n, resets, naps, slept)
    ensures NapsOk(Counted(n + 1), n + 1, resets, naps, slept)
  {
    assert n < MAX_RESTART_ATTEMPTS ==> TotalBackoff(n + 1) == TotalBackoff(n) + Backoff(n + 1);
  }

  lemma AdvanceFlag(pc: Pc, n: int, stop: bool, asked: StopHistory, ok: bool, born: Child)
    requires FlagOk(pc, stop, asked)
    ensures FlagOk(NextPc(pc, stop, n, ok, born), stop, NextAsked(pc, asked, ok))
  {
  }

  lemma AdvanceLate(pc: Pc, n: int, resets: nat, stop: bool, late: nat, asked: StopHistory, ok: bool, born: Child)
    requires CountsOk(pc, n, resets) && FlagOk(pc, stop, asked) && LimitOk(pc, n, asked) && LateOk(pc, late, asked)
    ensures LateOk(NextPc(pc, stop, n, ok, born), late + (if Spawns(pc, ok) && stop then 1 else 0),
            NextAsked(pc, asked, ok))
  {
  }

  lemma AdvanceLimit(pc: Pc, n: int, resets: nat, stop: bool, asked: StopHistory, ok: bool, born: Child)
    requires CountsOk(pc, n, resets) && FlagOk(pc, stop, asked) && LimitOk(pc, n, asked)
    ensures LimitOk(NextPc(pc, stop, n, ok, born), NextCount(pc, n), NextAsked(pc, asked, ok))
  {
  }

  lemma AdvanceBirth(pc: Pc, n: int, stop: bool, late: nat, asked: StopHistory, ok: bool, born: Child)
    requires FlagOk(pc, stop, asked) && LateOk(pc, late, asked) && BirthOk(pc, asked) && !pc.Done?
    ensures BirthOk(NextPc(pc, stop, n, ok, born), NextAsked(pc, asked, ok))
  {
  }

  lemma AdvanceStop(pc: Pc, n: int, resets: nat, stop: bool, late: nat, asked: StopHistory, ok: bool, born: Child)
    requires CountsOk(pc, n, resets) && StopOk(pc, n, stop, late, asked) && !pc.Done?
    ensures StopOk(NextPc(pc, stop, n, ok, born), NextCount(pc, n), stop,
                   late + (if Spawns(pc, ok) && stop then 1 else 0), NextAsked(pc, asked, ok))
  {
    AdvanceFlag(pc, n, stop, asked, ok, born);
    AdvanceLate(pc, n, resets, stop, late, asked, ok, born);
    AdvanceLimit(pc, n, resets, stop, asked, ok, born);
    AdvanceBirth(pc, n, stop, late, asked, ok, born);
  }

  /** Every step of the goroutine spends potential. */
  lemma AdvanceSpends(pc: Pc, n: int, resets: nat, stop: bool, ok: bool, born: Child)
    requires CountsOk(pc, n, resets) && !pc.Done?
    ensures Potential(NextPc(pc, stop, n, ok, born), NextCount(pc, n)) < Potential(pc, n)
  {
  }

  lemma AdvanceHistory(i: Inc, ok: bool, born: Child)
    requires HistoryOk(i) && CountsOk(i.pc, i.restartCount, i.resets) && !i.pc.Done?
    ensures HistoryOk(Advance(i, ok, born))
  {
    AdvanceTrace(i.pc, i.events, i.restarts, i.lastNap, i.stopRequested, i.restartCount, ok, born);
    AdvanceRestarts(i.pc, i.restarts, i.lastNap, i.stopRequested, i.restartCount, i.resets, ok, born);
    AdvanceClimb(i.pc, i.restarts, i.lastNap, i.stopRequested, i.restartCount, i.resets, ok, born);
    AdvanceTries(i.pc, i.restartCount, i.naps, i.tries, i.stopRequested, ok, born);
    AdvanceTimer(i.pc, i.timerArmed, i.fired, i.restartCount, i.stopRequested, ok, born);
    AdvancePeriods(i, ok, born);
  }

  lemma AdvancePeriods(i: Inc, ok: bool, born: Child)
    requires PeriodsOk(i.pc, i.restarts, i.timerArmed, i.resets, i.lateFires) && TimerOk(i.pc, i.timerArmed, i.fired)
    requires RestartsOk(i.pc, i.restarts, i.lastNap) && !i.pc.Done?
    ensures var j := Advance(i, ok, born); PeriodsOk(j.pc, j.restarts, j.timerArmed, j.resets, j.lateFires)
  {
  }

  lemma AdvanceTries(pc: Pc, n: int, naps: nat, tries: nat, stop: bool, ok: bool, born: Child)
    requires TriesOk(pc, naps, tries)
    ensures TriesOk(NextPc(pc, stop, n, ok, born), naps + (if NapDue(pc) then 1 else 0),
                    tries + (if pc.Restarting? then 1 else 0))
  {
  }

  lemma AdvanceTimer(pc: Pc, armed: bool, fired: bool, n: int, stop: bool, ok: bool, born: Child)
    requires TimerOk(pc, armed, fired)
    ensures TimerOk(NextPc(pc, stop, n, ok, born), NextTimer(pc, armed), fired && !pc.Arming? && !pc.Rearming?)
  {
  }

  lemma AdvanceKeeps(i: Inc, ok: bool, born: Child)
    requires LocalOk(i) && !i.pc.Done?
    ensures LocalOk(Advance(i, ok, born))
  {
    AdvanceHistory(i, ok, born);
    AdvanceCounts(i.pc, i.restartCount, i.resets, i.stopRequested, ok, born);
    AdvanceNaps(i.pc, i.restartCount, i.resets, i.naps, i.slept, i.stopRequested, ok, born);
    AdvanceStop(i.pc, i.restartCount, i.resets, i.stopRequested, i.lateSpawns, i.asked, ok, born);
    AdvanceSpends(i.pc, i.restartCount, i.resets, i.stopRequested, ok, born);
  }

  lemma ResetNaps(pc: Pc, n: int, resets: nat, naps: nat, slept: int)
    requires CountsOk(pc, n, resets) && NapsOk(pc, n, resets, naps, slept)
    ensures NapsOk(pc, 0, resets + 1, naps, slept)
  {
    TotalBackoffMonotone(Capped(n), MAX_RESTART_ATTEMPTS);
    assert FULL_BACKOFF * (resets + 1) == FULL_BACKOFF * resets + FULL_BACKOFF;
  }

  lemma ResetKeeps(i: Inc)
    requires LocalOk(i) && i.lateFires > 0
    ensures LocalOk(Reset(i))
  {
    ResetNaps(i.pc, i.restartCount, i.resets, i.naps, i.slept);
  }

  lemma FlagKeeps(i: Inc)
    requires LocalOk(i)
    ensures LocalOk(Flag(i))
  {
  }

  lemma NewIncOk(domain: string)
    ensures LocalOk(NewInc(domain))
  {
  }
}
