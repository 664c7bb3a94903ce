/** Three runs that bound what may be claimed of the supervisor: a child is started after Stop returned, a
    Stop meets the error exit, and an old incarnation's Stopped follows its successor's Active. */
module SupervisorExamples {
  import opened Prelude
  import opened Supervisor
  import opened SupervisorRuns

  ghost predicate Reaches(run: seq<Action>, t: State) {
    Legal(INIT, run) && Exec(INIT, run) == t
  }

  lemma {:induction false} LegalSnoc(s: State, run: seq<Action>, a: Action)
    requires Legal(s, run) && Enabled(Exec(s, run), a)
    ensures Legal(s, run + [a]) && Exec(s, run + [a]) == Apply(Exec(s, run), a)
    decreases |run|
  {
    if run == [] {
      assert [a][1..] == [];
      assert run + [a] == [a];
    } else {
      LegalSnoc(Apply(s, run[0]), run[1..], a);
      assert (run + [a])[0] == run[0] && (run + [a])[1..] == run[1..] + [a];
    }
  }

  lemma Then(run: seq<Action>, s: State, a: Action) returns (longer: seq<Action>)
    requires Reaches(run, s) && Enabled(s, a)
    ensures Reaches(longer, Apply(s, a)) && longer == run + [a]
  {
    longer := run + [a];
    LegalSnoc(INIT, run, a);
  }

  /** The goroutine's step touches neither the map nor the children nor the log. */
  predicate Inner(pc: Pc, ok: bool) {
    Emits(pc) == [] && !Deletes(pc) && !Spawns(pc, ok) && !pc.Killing?
  }

  /** Such a step of the only incarnation. */
  lemma Quiet(run: seq<Action>, s: State, i: Inc, ok: bool) returns (longer: seq<Action>)
    requires Reaches(run, s) && s.incs == map[0 := i] && Enabled(s, Adv(0, ok)) && Inner(i.pc, ok)
    ensures Reaches(longer, s.(incs := map[0 := Advance(i, ok, s.nextChild)]))
    ensures Advance(i, ok, s.nextChild).events == i.events
  {
    longer := Then(run, s, Adv(0, ok));
    assert s.incs[0 := Advance(i, ok, s.nextChild)] == map[0 := Advance(i, ok, s.nextChild)];
    assert s.log + [] == s.log && i.events + [] == i.events;
  }

  /** A step that emits one event. */
  lemma Loud(run: seq<Action>, s: State, i: Inc, e: Event) returns (longer: seq<Action>)
    requires Reaches(run, s) && s.incs == map[0 := i] && Enabled(s, Adv(0, true)) && Emits(i.pc) == [e]
    ensures Reaches(longer, s.(incs := map[0 := Advance(i, true, s.nextChild)], log := s.log + [(0, e)]))
  {
    longer := Then(run, s, Adv(0, true));
    OneTagged(0, e);
    assert s.incs[0 := Advance(i, true, s.nextChild)] == map[0 := Advance(i, true, s.nextChild)];
  }

  lemma OneTagged(r: Ref, e: Event)
    ensures Tagged(r, [e]) == [(r, e)]
  {
    assert [e][1..] == [] && Tagged(r, [e][1..]) == [];
  }

  /** Stop finds the process and sets the flag. */
  lemma Flagged(d: string, run: seq<Action>, s: State, i: Inc) returns (longer: seq<Action>)
    requires Reaches(run, s) && s.procs == map[d := 0] && s.incs == map[0 := i] && !i.stopRequested
    ensures Reaches(longer, s.(found := s.found + {0}, incs := map[0 := Flag(i)]))
  {
    longer := Then(run, s, StopLookup(d));
    var found := s.(found := s.found + {0});
    longer := Then(longer, found, StopFlag(0));
    assert found.incs[0 := Flag(i)] == map[0 := Flag(i)];
  }

  /** A first incarnation of d, announced and watched. */
  function Watched(d: string): Inc {
    NewInc(d).(pc := Watching, cmd := Some(0), timerArmed := true, events := [Active(0)], steps := 4)
  }

  function Up(d: string): State {
    State(map[d := 0], map[0 := Watched(d)], map[0 := 0], 1, 1, {}, [(0, Active(0))])
  }

  lemma Announced(d: string) returns (run: seq<Action>)
    ensures Reaches(run, Up(d))
  {
    assert Reaches([], INIT);
    run := Then([], INIT, StartCall(d));
    var s1 := State(map[d := 0], map[0 := NewInc(d)], map[], 1, 0, {}, []);
    run := FirstChild(d, run, s1);
    var i := NewInc(d).(pc := Spawned(0), steps := 1);
    var s2 := s1.(incs := map[0 := i], live := map[0 := 0], nextChild := 1);
    run := Quiet(run, s2, i, true);
    run := ArmAndAnnounce(d, run, s2);
  }

  lemma FirstChild(d: string, before: seq<Action>, s: State) returns (run: seq<Action>)
    requires s == State(map[d := 0], map[0 := NewInc(d)], map[], 1, 0, {}, []) && Reaches(before, s)
    ensures Reaches(run,
            s.(incs := map[0 := NewInc(d).(pc := Spawned(0), steps := 1)], live := map[0 := 0], nextChild := 1))
  {
    run := Then(before, s, Adv(0, true));
    assert s.log + [] == s.log;
  }

  lemma ArmAndAnnounce(d: string, before: seq<Action>, s: State) returns (run: seq<Action>)
    requires s.procs == map[d := 0] && s.live == map[0 := 0] && s.nextRef == 1 && s.nextChild == 1 &&
            s.found == {} && s.log == []
    requires Reaches(before, s.(incs := map[0 := NewInc(d).(pc := Arming, cmd := Some(0), steps := 2)]))
    ensures Reaches(run, Up(d))
  {
    var i := NewInc(d).(pc := Arming, cmd := Some(0), steps := 2);
    run := Quiet(before, s.(incs := map[0 := i]), i, true);
    var j := i.(pc := Announcing, timerArmed := true, steps := 3);
    run := Announces(d, run, s.(incs := map[0 := j]), j);
  }

  lemma Announces(d: string, before: seq<Action>, s: State, i: Inc) returns (run: seq<Action>)
    requires i == NewInc(d).(pc := Announcing, cmd := Some(0), timerArmed := true, steps := 3)
    requires s == State(map[d := 0], map[0 := i], map[0 := 0], 1, 1, {}, []) && Reaches(before, s)
    ensures Reaches(run, Up(d))
  {
    run := Loud(before, s, i, Active(0));
    assert [] + [Active(0)] == [Active(0)] && [] + [(0, Active(0))] == [(0, Active(0))];
  }

  // ---- a child started after Stop ------------------------------------------------------------------

  /** An incarnation whose loop has read the flag as false after n failed restarts. */
  function Failing(d: string, n: nat): Inc {
    Watched(d).(pc := Deciding(false), timerArmed := false, restartCount := n, naps := n, tries := n,
                    lastNap := Backoff(n), slept := TotalBackoff(n), steps := 6 + 5 * n)
  }

  function AboutToRestart(d: string, n: nat): State {
    State(map[d := 0], map[0 := Failing(d, n)], map[], 1, 1, {}, [(0, Active(0))])
  }

  lemma ChildDied(d: string) returns (run: seq<Action>)
    ensures Reaches(run, AboutToRestart(d, 0))
  {
    run := Announced(d);
    run := Then(run, Up(d), ChildExit(0));
    var s1 := Up(d).(live := map[]);
    run := Quiet(run, s1, Watched(d), true);
    var i := Watched(d).(pc := Exited, steps := 5);
    run := Quiet(run, s1.(incs := map[0 := i]), i, true);
  }

  /** Stop has found the process, set the flag and signalled child 0, which had already exited; then child 1
      is started all the same, and has had no signal. */
  lemma StartAfterStop(d: string) returns (run: seq<Action>)
    ensures Legal(INIT, run) && 0 in Exec(INIT, run).incs
    ensures Exec(INIT, run).incs[0].lateSpawns == 1 && Exec(INIT, run).live == map[1 := 0]
    ensures Exec(INIT, run).incs[0].asked.Asked? && Exec(INIT, run).incs[0].asked.signalled == Some(0)
  {
    run := ChildDied(d);
    var s := AboutToRestart(d, 0);
    run := Flagged(d, run, s, Failing(d, 0));
    run := RestartAnyway(run, s.(found := s.found + {0}, incs := map[0 := Flag(Failing(d, 0))]), Flag(Failing(d, 0)));
  }

  lemma RestartAnyway(before: seq<Action>, s: State, i: Inc) returns (run: seq<Action>)
    requires Reaches(before, s) && s.incs == map[0 := i] && s.live == map[] && s.nextChild == 1
    requires i.pc == Deciding(false) && i.restartCount == 0 && i.stopRequested && i.lateSpawns == 0
    requires i.asked.Asked? && i.asked.signalled == Some(0)
    ensures Legal(INIT, run) && 0 in Exec(INIT, run).incs
    ensures Exec(INIT, run).incs[0].lateSpawns == 1 && Exec(INIT, run).live == map[1 := 0]
    ensures Exec(INIT, run).incs[0].asked.Asked? && Exec(INIT, run).incs[0].asked.signalled == Some(0)
  {
    run := Quiet(before, s, i, true);
    var j := Advance(i, true, 1);
    run := Quiet(run, s.(incs := map[0 := j]), j, true);
    var k := Advance(j, true, 1);
    run := Then(run, s.(incs := map[0 := k]), Adv(0, true));
  }

  // ---- a Stop that meets the error exit ------------------------------------------------------------

  /** One more restart whose cmd.Start fails. */
  lemma FailOnce(d: string, n: nat, before: seq<Action>) returns (run: seq<Action>)
    requires Reaches(before, AboutToRestart(d, n)) && n < MAX_RESTART_ATTEMPTS
    ensures Reaches(run, AboutToRestart(d, n + 1))
  {
    var s, i := AboutToRestart(d, n), Failing(d, n);
    run := Quiet(before, s, i, false);
    run := Sleeps(d, n, run, i.(pc := Counted(n + 1), restartCount := n + 1, steps := 7 + 5 * n));
    run := StartFails(d, n + 1, run, Failing(d, n + 1).(pc := Restarting(n + 1), tries := n, steps := 8 + 5 * n));
  }

  lemma Sleeps(d: string, n: nat, before: seq<Action>, i: Inc) returns (run: seq<Action>)
    requires i == Failing(d, n).(pc := Counted(n + 1), restartCount := n + 1, steps := 7 + 5 * n) &&
            n < MAX_RESTART_ATTEMPTS
    requires Reaches(before, AboutToRestart(d, n).(incs := map[0 := i]))
    ensures Reaches(run,
            AboutToRestart(d, n + 1).(
              incs := map[0 := Failing(d, n + 1).(pc := Restarting(n + 1), tries := n, steps := 8 + 5 * n)]))
  {
    run := Quiet(before, AboutToRestart(d, n).(incs := map[0 := i]), i, false);
    assert TotalBackoff(n + 1) == TotalBackoff(n) + Backoff(n + 1);
  }

  lemma StartFails(d: string, n: nat, before: seq<Action>, i: Inc) returns (run: seq<Action>)
    requires n >= 1 && i == Failing(d, n).(pc := Restarting(n), tries := n - 1, steps := 3 + 5 * n)
    requires Reaches(before, AboutToRestart(d, n).(incs := map[0 := i]))
    ensures Reaches(run, AboutToRestart(d, n))
  {
    var s := AboutToRestart(d, n);
    run := Quiet(before, s.(incs := map[0 := i]), i, false);
    var watching := i.(pc := Watching, tries := n, steps := 4 + 5 * n);
    assert Advance(i, false, s.nextChild) == watching.(events := Advance(i, false, s.nextChild).events);
    run := OldExitSeen(run, s.(incs := map[0 := watching]), watching);
  }

  /** The child that already exited is waited for once more. */
  lemma OldExitSeen(before: seq<Action>, s: State, i: Inc) returns (run: seq<Action>)
    requires Reaches(before, s) && s.incs == map[0 := i] && i.pc.Watching? && i.cmd.Some? && s.live == map[]
    requires !i.timerArmed && !i.stopRequested && i.asked.Unasked?
    ensures Reaches(run, s.(incs := map[0 := i.(pc := Deciding(false), steps := i.steps + 2)]))
  {
    run := Quiet(before, s, i, false);
    var exited := i.(pc := Exited, steps := i.steps + 1);
    run := Quiet(run, s.(incs := map[0 := exited]), exited, false);
  }

  lemma {:induction false} FailTimes(d: string, n: nat) returns (run: seq<Action>)
    requires n <= MAX_RESTART_ATTEMPTS
    ensures Reaches(run, AboutToRestart(d, n))
  {
    if n == 0 {
      run := ChildDied(d);
    } else {
      run := FailTimes(d, n - 1);
      run := FailOnce(d, n - 1, run);
    }
  }

  /** Stop sets the flag when the loop has just read it as false and the limit is used up: no child is
      started, and the run ends in Error although a stop was requested. */
  lemma StopMeetsError(d: string) returns (run: seq<Action>)
    ensures Legal(INIT, run) && 0 in Exec(INIT, run).incs
    ensures Exec(INIT, run).incs[0].stopRequested && Exec(INIT, run).incs[0].pc == Done(ErroredRun)
  {
    run := FailTimes(d, MAX_RESTART_ATTEMPTS);
    var s := AboutToRestart(d, MAX_RESTART_ATTEMPTS);
    var i := Flag(Failing(d, MAX_RESTART_ATTEMPTS));
    run := Flagged(d, run, s, Failing(d, MAX_RESTART_ATTEMPTS));
    run := ErrorExit(run, s.(found := s.found + {0}, incs := map[0 := i]), i);
  }

  lemma ErrorExit(before: seq<Action>, s: State, i: Inc) returns (run: seq<Action>)
    requires Reaches(before, s) && s.incs == map[0 := i] && i.stopRequested
    requires i.pc == Deciding(false) && i.restartCount == MAX_RESTART_ATTEMPTS
    ensures Legal(INIT, run) && 0 in Exec(INIT, run).incs
    ensures Exec(INIT, run).incs[0].stopRequested && Exec(INIT, run).incs[0].pc == Done(ErroredRun)
  {
    run := Quiet(before, s, i, true);
    var j := Advance(i, true, s.nextChild);
    run := Quiet(run, s.(incs := map[0 := j]), j, true);
    var k := Advance(j, true, s.nextChild);
    run := ErrorSaid(run, s.(incs := map[0 := k]), k);
  }

  lemma ErrorSaid(before: seq<Action>, s: State, i: Inc) returns (run: seq<Action>)
    requires Reaches(before, s) && s.incs == map[0 := i] && i.stopRequested && i.pc.ErrDeleting?
    ensures Legal(INIT, run) && 0 in Exec(INIT, run).incs
    ensures Exec(INIT, run).incs[0].stopRequested && Exec(INIT, run).incs[0].pc == Done(ErroredRun)
  {
    run := Then(before, s, Adv(0, true));
    run := Then(run, Apply(s, Adv(0, true)), Adv(0, true));
  }

  // ---- a stale Stopped -----------------------------------------------------------------------------

  /** The first incarnation has been stopped and removed, and still has to say so. */
  function Removed(d: string): State {
    State(map[], map[0 := Flag(Watched(d)).(pc := StopEmitting, timerArmed := false, steps := 8)],
          map[], 1, 1, {0}, [(0, Active(0))])
  }

  lemma StoppedAndRemoved(d: string) returns (run: seq<Action>)
    ensures Reaches(run, Removed(d))
  {
    run := Announced(d);
    run := Flagged(d, run, Up(d), Watched(d));
    var i := Flag(Watched(d));
    var s := Up(d).(found := {0}, incs := map[0 := i]);
    assert Up(d).found + {0} == {0};
    run := Then(run, s, ChildExit(0));
    run := Remove(d, run, s.(live := map[]), i);
  }

  lemma Remove(d: string, before: seq<Action>, s: State, i: Inc) returns (run: seq<Action>)
    requires i == Flag(Watched(d))
    requires s == State(map[d := 0], map[0 := i], map[], 1, 1, {0}, [(0, Active(0))]) && Reaches(before, s)
    ensures Reaches(run, Removed(d))
  {
    run := Quiet(before, s, i, true);
    var exited := i.(pc := Exited, steps := 5);
    run := Quiet(run, s.(incs := map[0 := exited]), exited, true);
    var deciding := i.(pc := Deciding(true), timerArmed := false, steps := 6);
    run := Quiet(run, s.(incs := map[0 := deciding]), deciding, true);
    run := LeaveTheMap(d, run, s.(incs := map[0 := i.(pc := StopDeleting, timerArmed := false, steps := 7)]));
  }

  lemma LeaveTheMap(d: string, before: seq<Action>, s: State) returns (run: seq<Action>)
    requires s == Removed(d).(procs := map[d := 0],
            incs := map[0 := Removed(d).incs[0].(pc := StopDeleting, steps := 7)])
    requires Reaches(before, s)
    ensures Reaches(run, Removed(d))
  {
    run := Then(before, s, Adv(0, true));
    assert [Active(0)] + [] == [Active(0)] && s.log + [] == s.log;
  }

  /** A second Start call for the domain and its first child. */
  lemma Successor(d: string, before: seq<Action>) returns (run: seq<Action>, s: State)
    requires Reaches(before, Removed(d))
    ensures Reaches(run, s) && s.procs == map[d := 1] && s.live == map[1 := 1] && s.log == Removed(d).log
    ensures 0 in s.incs && s.incs[0] == Removed(d).incs[0]
    ensures 1 in s.incs && s.incs[1].pc == Spawned(1) && !s.incs[1].stopRequested
  {
    var s0 := Removed(d);
    run := Then(before, s0, StartCall(d));
    var s1 := Apply(s0, StartCall(d));
    run := Then(run, s1, Adv(1, true));
    s := Apply(s1, Adv(1, true));
    assert s1.log + [] == s1.log;
  }

  /** The successor publishes its child and arms the timer. */
  lemma SuccessorArmed(d: string, before: seq<Action>, s: State) returns (run: seq<Action>, t: State)
    requires Reaches(before, s) && 0 in s.incs && 1 in s.incs && s.incs[1].pc.Spawned? && !s.incs[1].stopRequested
    ensures Reaches(run, t) && t.procs == s.procs && t.live == s.live && t.log == s.log
    ensures 0 in t.incs && t.incs[0] == s.incs[0] && 1 in t.incs && t.incs[1].pc == Announcing
  {
    run := Then(before, s, Adv(1, true));
    var s1 := Apply(s, Adv(1, true));
    assert s.log + [] == s.log;
    run := Then(run, s1, Adv(1, true));
    t := Apply(s1, Adv(1, true));
  }

  lemma Emission(before: seq<Action>, s: State, r: Ref, e: Event) returns (run: seq<Action>, t: State)
    requires Reaches(before, s) && Enabled(s, Adv(r, true)) && Emits(s.incs[r].pc) == [e]
    requires !Deletes(s.incs[r].pc) && !Tries(s.incs[r].pc) && !s.incs[r].pc.Killing?
    ensures Reaches(run, t) && t.procs == s.procs && t.live == s.live && t.log == s.log + [(r, e)]
    ensures forall q :: q in s.incs && q != r ==> q in t.incs && t.incs[q] == s.incs[q]
  {
    run := Then(before, s, Adv(r, true));
    t := Apply(s, Adv(r, true));
    OneTagged(r, e);
  }

  /** Subscribers, and the stored status, can see the old incarnation's Stopped last while the new one is
      running. */
  lemma StaleStopped(d: string) returns (run: seq<Action>)
    ensures Legal(INIT, run)
    ensures Exec(INIT, run).log == [(0, Active(0)), (1, Active(0)), (0, Stopped)]
    ensures Exec(INIT, run).procs == map[d := 1] && Exec(INIT, run).live == map[1 := 1]
  {
    run := StoppedAndRemoved(d);
    var s;
    run, s := Successor(d, run);
    run, s := SuccessorArmed(d, run, s);
    run := LastWords(d, run, s);
  }

  lemma LastWords(d: string, before: seq<Action>, s: State) returns (run: seq<Action>)
    requires Reaches(before, s) && s.procs == map[d := 1] && s.live == map[1 := 1] && s.log == [(0, Active(0))]
    requires 0 in s.incs && s.incs[0].pc == StopEmitting && 1 in s.incs && s.incs[1].pc == Announcing
    ensures Legal(INIT, run)
    ensures Exec(INIT, run).log == [(0, Active(0)), (1, Active(0)), (0, Stopped)]
    ensures Exec(INIT, run).procs == map[d := 1] && Exec(INIT, run).live == map[1 := 1]
  {
    var t;
    run, t := Emission(before, s, 1, Active(0));
    run, t := Emission(run, t, 0, Stopped);
  }
}
