/** Persist, publish, and the list stream's readers as a step machine: any number of writers and
    subscribers in any interleaving. A channel's one-token buffer is a set membership. */
module Notify {
  import opened Prelude

  type Wid = nat
  /** A subscriber; also the name of its channel. */
  type Rid = nat

  datatype Writer =
    | Persisted                      // repo call done, wants subscriberMu
    | Publishing(todo: set<Rid>)     // holds subscriberMu, walks the subscribers

  /** Where the stream handler is. A list is two queries, so it may mix two versions of the store. */
  datatype Reader =
    | Subscribed                     // registered, first list not begun
    | Half(first: nat)               // domains read at that version, routes not yet
    | Waiting(first: nat, second: nat)  // that snapshot sent, in select
    | Taken                          // token received, list not begun
    | Leaving                        // stream over, cancel not run
    | Gone

  datatype State = State(
    version: nat,                    // how many changes the store has seen
    subscriberMu: Option<Wid>,
    subs: set<Rid>,
    full: set<Rid>,                  // channels holding a token
    writers: map<Wid, Writer>,       // writers between persisting and the end of publish
    readers: map<Rid, Reader>)

  const INIT := State(0, None, {}, {}, map[], map[])

  datatype Action =
    | Persist(w: Wid)
    | BeginPublish(w: Wid)
    | Send(w: Wid, r: Rid)
    | EndPublish(w: Wid)
    | Subscribe(r: Rid)
    | FirstQuery(r: Rid)
    | SecondQuery(r: Rid)
    | QueryFails(r: Rid)
    | Take(r: Rid)
    | Disconnect(r: Rid)
    | Cancel(r: Rid)

  predicate Enabled(s: State, a: Action) {
    match a
    case Persist(w) => w !in s.writers
    case BeginPublish(w) => w in s.writers && s.writers[w].Persisted? && s.subscriberMu.None?
    case Send(w, r) => w in s.writers && s.writers[w].Publishing? && r in s.writers[w].todo
    case EndPublish(w) => w in s.writers && s.writers[w].Publishing? && s.writers[w].todo == {}
    case Subscribe(r) => r !in s.readers && s.subscriberMu.None?
    case FirstQuery(r) => r in s.readers && (s.readers[r].Subscribed? || s.readers[r].Taken?)
    case SecondQuery(r) => r in s.readers && s.readers[r].Half?
    case QueryFails(r) => r in s.readers && (s.readers[r].Subscribed? || s.readers[r].Taken? || s.readers[r].Half?)
    case Take(r) => r in s.readers && s.readers[r].Waiting? && r in s.full
    case Disconnect(r) => r in s.readers && s.readers[r].Waiting?
    case Cancel(r) => r in s.readers && s.readers[r].Leaving? && s.subscriberMu.None?
  }

  function Apply(s: State, a: Action): State
    requires Enabled(s, a)
  {
    match a
    case Persist(w) => s.(version := s.version + 1, writers := s.writers[w := Persisted])
    case BeginPublish(w) => s.(subscriberMu := Some(w), writers := s.writers[w := Publishing(s.subs)])
    case Send(w, r) => s.(full := s.full + {r}, writers := s.writers[w := Publishing(s.writers[w].todo - {r})])
    case EndPublish(w) => s.(subscriberMu := None, writers := s.writers - {w})
    case Subscribe(r) => s.(subs := s.subs + {r}, readers := s.readers[r := Subscribed])
    case FirstQuery(r) => s.(readers := s.readers[r := Half(s.version)])
    case SecondQuery(r) => s.(readers := s.readers[r := Waiting(s.readers[r].first, s.version)])
    case QueryFails(r) => s.(readers := s.readers[r := Leaving])
    case Take(r) => s.(full := s.full - {r}, readers := s.readers[r := Taken])
    case Disconnect(r) => s.(readers := s.readers[r := Leaving])
    case Cancel(r) => s.(subs := s.subs - {r}, readers := s.readers[r := Gone])
  }

  ghost predicate Legal(s: State, run: seq<Action>)
    decreases |run|
  {
    run == [] || (Enabled(s, run[0]) && Legal(Apply(s, run[0]), run[1..]))
  }

  function Exec(s: State, run: seq<Action>): State
    requires Legal(s, run)
    decreases |run|
  {
    if run == [] then s else Exec(Apply(s, run[0]), run[1..])
  }

  // ---- the invariant -----------------------------------------------------------------------------

  predicate Owes(w: Writer, r: Rid) { w.Persisted? || (w.Publishing? && r in w.todo) }

  /** A wake-up is on its way: a token is there, or some writer still has to send one. */
  ghost predicate Noticed(s: State, r: Rid) {
    r in s.full || exists w :: w in s.writers && Owes(s.writers[w], r)
  }

  /** What a reader has read is current, or it will be told. */
  ghost predicate ReaderOk(s: State, r: Rid)
    requires r in s.readers
  {
    match s.readers[r]
    case Half(first) => first <= s.version && (first == s.version || Noticed(s, r))
    case Waiting(first, second) =>
      first <= second <= s.version && ((first == s.version && second == s.version) || Noticed(s, r))
    case _ => true
  }

  ghost predicate ReadersOk(s: State) {
    forall r :: r in s.readers ==> ReaderOk(s, r)
  }

  ghost predicate SubsOk(s: State) {
    forall r :: r in s.subs <==> r in s.readers && !s.readers[r].Gone?
  }

  ghost predicate MutexOk(s: State) {
    && (forall w :: w in s.writers && s.writers[w].Publishing? ==> s.subscriberMu == Some(w))
    && (s.subscriberMu.Some? ==> s.subscriberMu.value in s.writers && s.writers[s.subscriberMu.value].Publishing?)
  }

  ghost predicate Inv(s: State) { ReadersOk(s) && SubsOk(s) && MutexOk(s) }

  /** A wake-up on its way stays on its way until the reader takes it. */
  lemma NoticedStays(s: State, a: Action, r: Rid)
    requires Enabled(s, a) && r in s.subs && Noticed(s, r) && a != Take(r)
    ensures Noticed(Apply(s, a), r)
  {
    var t := Apply(s, a);
    if r !in s.full {
      var w :| w in s.writers && Owes(s.writers[w], r);
      assert r in t.full || (w in t.writers && Owes(t.writers[w], r));
    }
  }

  lemma PersistNotices(s: State, w: Wid, r: Rid)
    requires Enabled(s, Persist(w))
    ensures Noticed(Apply(s, Persist(w)), r)
  {
    assert Owes(Apply(s, Persist(w)).writers[w], r);
  }

  lemma ReaderStep(s: State, a: Action, r: Rid)
    requires ReadersOk(s) && SubsOk(s) && Enabled(s, a) && r in Apply(s, a).readers
    ensures ReaderOk(Apply(s, a), r)
  {
    if a.Persist? { PersistNotices(s, a.w, r); }
    if r in s.readers && !s.readers[r].Gone? && Noticed(s, r) && a != Take(r) { NoticedStays(s, a, r); }
  }

  lemma InvStep(s: State, a: Action)
    requires Inv(s) && Enabled(s, a)
    ensures Inv(Apply(s, a))
  {
    forall r | r in Apply(s, a).readers ensures ReaderOk(Apply(s, a), r) {
      ReaderStep(s, a, r);
    }
    MutexStep(s, a);
    SubsStep(s, a);
  }

  lemma MutexStep(s: State, a: Action)
    requires MutexOk(s) && Enabled(s, a)
    ensures MutexOk(Apply(s, a))
  {
  }

  lemma SubsStep(s: State, a: Action)
    requires SubsOk(s) && Enabled(s, a)
    ensures SubsOk(Apply(s, a))
  {
  }

  lemma {:induction false} InvRun(s: State, run: seq<Action>)
    requires Inv(s) && Legal(s, run)
    ensures Inv(Exec(s, run))
    decreases |run|
  {
    if run != [] {
      InvStep(s, run[0]);
      InvRun(Apply(s, run[0]), run[1..]);
    }
  }

  // ---- what it gives -------------------------------------------------------------------------------

  /** No lost wake-up: in every reachable state a stream whose last snapshot is not the current store
      has a token waiting, or a writer that has persisted has yet to send it one. */
  lemma NoLostWakeUp(run: seq<Action>, r: Rid)
    requires Legal(INIT, run) && r in Exec(INIT, run).readers && Exec(INIT, run).readers[r].Waiting?
    ensures var s := Exec(INIT, run);
            Noticed(s, r) || s.readers[r] == Waiting(s.version, s.version)
  {
    InvRun(INIT, run);
    assert ReaderOk(Exec(INIT, run), r);
  }

  /** At quiescence, with every writer done and no token left, every stream has sent the current store,
      both halves of it. */
  lemma QuiescentIsCurrent(run: seq<Action>, r: Rid)
    requires Legal(INIT, run) && Exec(INIT, run).writers == map[]
    requires r in Exec(INIT, run).readers && Exec(INIT, run).readers[r].Waiting? && r !in Exec(INIT, run).full
    ensures Exec(INIT, run).readers[r] == Waiting(Exec(INIT, run).version, Exec(INIT, run).version)
  {
    NoLostWakeUp(run, r);
  }

  /** Publishing never waits for a reader: a writer that has persisted, or the one that holds the mutex
      before it, can always step. */
  lemma WritersNeverStall(run: seq<Action>, w: Wid) returns (a: Action)
    requires Legal(INIT, run) && w in Exec(INIT, run).writers
    ensures Enabled(Exec(INIT, run), a) && (a.BeginPublish? || a.Send? || a.EndPublish?)
  {
    InvRun(INIT, run);
    var s := Exec(INIT, run);
    if s.subscriberMu.None? {
      a := BeginPublish(w);
    } else {
      var holder := s.subscriberMu.value;
      if s.writers[holder].todo == {} {
        a := EndPublish(holder);
      } else {
        var r :| r in s.writers[holder].todo;
        a := Send(holder, r);
      }
    }
  }

  /** How often reader r was sent a token, and took one. */
  function Sends(run: seq<Action>, r: Rid): nat {
    if run == [] then 0 else (if run[0].Send? && run[0].r == r then 1 else 0) + Sends(run[1..], r)
  }

  function Takes(run: seq<Action>, r: Rid): nat {
    if run == [] then 0 else (if run[0] == Take(r) then 1 else 0) + Takes(run[1..], r)
  }

  function Token(s: State, r: Rid): nat { if r in s.full then 1 else 0 }

  lemma {:induction false} TokensFrom(s: State, run: seq<Action>, r: Rid)
    requires Legal(s, run)
    ensures Takes(run, r) + Token(Exec(s, run), r) <= Sends(run, r) + Token(s, r)
    decreases |run|
  {
    if run != [] { TokensFrom(Apply(s, run[0]), run[1..], r); }
  }

  /** A stream wakes up at most once for each token sent to it. */
  lemma WakeUpsAreBounded(run: seq<Action>, r: Rid)
    requires Legal(INIT, run)
    ensures Takes(run, r) + (if r in Exec(INIT, run).full then 1 else 0) <= Sends(run, r)
  {
    TokensFrom(INIT, run, r);
  }

  /** The subscribers are the streams that have not ended: a stream that has is sent nothing by a publish
      begun later. */
  lemma SubscribersAreOpen(run: seq<Action>, w: Wid, r: Rid)
    requires Legal(INIT, run) && Enabled(Exec(INIT, run), BeginPublish(w))
    ensures var s := Exec(INIT, run);
            r in Apply(s, BeginPublish(w)).writers[w].todo <==> r in s.readers && s.readers[r] != Gone
  {
    InvRun(INIT, run);
  }

  // ---- what a list shows ---------------------------------------------------------------------------

  /** How many changes a run makes. */
  function Changes(run: seq<Action>): nat {
    if run == [] then 0 else (if run[0].Persist? then 1 else 0) + Changes(run[1..])
  }

  lemma {:induction false} VersionCounts(s: State, run: seq<Action>)
    requires Legal(s, run)
    ensures Exec(s, run).version == s.version + Changes(run)
    decreases |run|
  {
    if run != [] { VersionCounts(Apply(s, run[0]), run[1..]); }
  }

  lemma {:induction false} RunInParts(s: State, a: seq<Action>, b: seq<Action>)
    requires Legal(s, a + b)
    ensures Legal(s, a) && Legal(Exec(s, a), b) && Exec(s, a + b) == Exec(Exec(s, a), b)
    decreases |a|
  {
    if a == [] {
      assert a + b == b;
    } else {
      assert (a + b)[0] == a[0] && (a + b)[1..] == a[1..] + b;
      RunInParts(Apply(s, a[0]), a[1..], b);
    }
  }

  /** A step of reader r itself. */
  predicate OwnStep(a: Action, r: Rid) {
    match a
    case Subscribe(q) => q == r
    case FirstQuery(q) => q == r
    case SecondQuery(q) => q == r
    case QueryFails(q) => q == r
    case Take(q) => q == r
    case Disconnect(q) => q == r
    case Cancel(q) => q == r
    case _ => false
  }

  ghost predicate OthersOnly(run: seq<Action>, r: Rid) { forall a :: a in run ==> !OwnStep(a, r) }

  lemma {:induction false} OthersLeaveIt(s: State, run: seq<Action>, r: Rid)
    requires Legal(s, run) && r in s.readers && OthersOnly(run, r)
    ensures r in Exec(s, run).readers && Exec(s, run).readers[r] == s.readers[r]
    decreases |run|
  {
    if run != [] {
      assert !OwnStep(run[0], r) && forall a :: a in run[1..] ==> a in run;
      OthersLeaveIt(Apply(s, run[0]), run[1..], r);
    }
  }

  /** A list shows the changes made before its first query in its domains, and those made before its second in
      its routes, whatever others do meanwhile. */
  lemma ListShowsTheStore(before: seq<Action>, between: seq<Action>, r: Rid)
    requires OthersOnly(between, r)
    requires Legal(INIT, before + ([FirstQuery(r)] + (between + [SecondQuery(r)])))
    ensures var end := Exec(INIT, before + ([FirstQuery(r)] + (between + [SecondQuery(r)])));
            r in end.readers && end.readers[r] == Waiting(Changes(before), Changes(before) + Changes(between))
  {
    RunInParts(INIT, before, [FirstQuery(r)] + (between + [SecondQuery(r)]));
    VersionCounts(INIT, before);
    var s := Exec(INIT, before);
    RunInParts(s, [FirstQuery(r)], between + [SecondQuery(r)]);
    OneStep(s, FirstQuery(r));
    var half := Apply(s, FirstQuery(r));
    RunInParts(half, between, [SecondQuery(r)]);
    VersionCounts(half, between);
    OthersLeaveIt(half, between, r);
    OneStep(Exec(half, between), SecondQuery(r));
  }

  lemma OneStep(s: State, a: Action)
    requires Legal(s, [a])
    ensures Enabled(s, a) && Exec(s, [a]) == Apply(s, a)
  {
    assert [a][1..] == [];
  }

  // ---- whom a publish reaches ----------------------------------------------------------------------

  ghost predicate Holding(s: State, w: Wid) {
    s.subscriberMu == Some(w) && w in s.writers && s.writers[w].Publishing?
  }

  /** Until its end a publish keeps the subscribers as they are and drops from its list only whom it sent to. */
  lemma {:induction false} PublishFrom(s: State, run: seq<Action>, w: Wid)
    requires MutexOk(s) && Holding(s, w) && Legal(s, run) && EndPublish(w) !in run
    ensures var end := Exec(s, run);
            && Holding(end, w) && end.subs == s.subs
            && forall r :: r in s.writers[w].todo ==> r in end.writers[w].todo || Send(w, r) in run
    decreases |run|
  {
    if run != [] {
      assert run[0] in run && run[0] != EndPublish(w) && forall a :: a in run[1..] ==> a in run;
      PublishStep(s, run[0], w);
      MutexStep(s, run[0]);
      PublishFrom(Apply(s, run[0]), run[1..], w);
    }
  }

  lemma PublishStep(s: State, a: Action, w: Wid)
    requires MutexOk(s) && Holding(s, w) && Enabled(s, a) && a != EndPublish(w)
    ensures var t := Apply(s, a);
            && Holding(t, w) && t.subs == s.subs
            && forall r :: r in s.writers[w].todo ==> r in t.writers[w].todo || a == Send(w, r)
  {
  }

  /** A publish that ends has sent to every stream subscribed at that moment. */
  lemma PublishReachesEverybody(before: seq<Action>, during: seq<Action>, w: Wid, r: Rid)
    requires EndPublish(w) !in during
    requires Legal(INIT, before + ([BeginPublish(w)] + (during + [EndPublish(w)])))
    requires r in Exec(INIT, before + ([BeginPublish(w)] + (during + [EndPublish(w)]))).subs
    ensures Send(w, r) in during
  {
    RunInParts(INIT, before, [BeginPublish(w)] + (during + [EndPublish(w)]));
    InvRun(INIT, before);
    var s := Exec(INIT, before);
    RunInParts(s, [BeginPublish(w)], during + [EndPublish(w)]);
    OneStep(s, BeginPublish(w));
    InvStep(s, BeginPublish(w));
    var begun := Apply(s, BeginPublish(w));
    RunInParts(begun, during, [EndPublish(w)]);
    PublishFrom(begun, during, w);
    OneStep(Exec(begun, during), EndPublish(w));
  }
}
