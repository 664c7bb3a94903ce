/** Metrics ports: the first free one of a fixed range, over runs of creations and deletions. */
module PortAlloc {
  import opened Prelude

  /** What Allocate returns: the least port of the range not taken, if there is one. */
  ghost predicate IsFirstFree(start: int, end: int, taken: set<int>, r: Option<int>) {
    match r
    case Some(port) => start <= port <= end && port !in taken && forall p :: start <= p < port ==> p in taken
    case None => forall p :: start <= p <= end ==> p in taken
  }

  method Allocate(start: int, end: int, taken: set<int>) returns (r: Option<int>)
    ensures IsFirstFree(start, end, taken, r)
  {
    var port := start;
    while port <= end
      invariant forall p :: start <= p < port && p <= end ==> p in taken
      decreases end - port
    {
      if port !in taken {
        return Some(port);
      }
      port := port + 1;
    }
    return None;
  }

  lemma FirstFreeIsUnique(start: int, end: int, taken: set<int>, a: Option<int>, b: Option<int>)
    requires IsFirstFree(start, end, taken, a) && IsFirstFree(start, end, taken, b)
    ensures a == b
  {
  }

  function Range(start: int, end: int): set<int>
    decreases end - start + 1
  {
    if start <= end then Range(start, end - 1) + {end} else {}
  }

  lemma {:induction false} RangeSize(start: int, end: int)
    requires start <= end + 1
    ensures |Range(start, end)| == end - start + 1
    ensures forall p :: p in Range(start, end) ==> start <= p <= end
    decreases end - start + 1
  {
    if start <= end { RangeSize(start, end - 1); }
  }

  /** Fewer taken ports than the range has: one is free. */
  lemma Pigeonhole(start: int, end: int, taken: set<int>, r: Option<int>)
    requires IsFirstFree(start, end, taken, r) && |taken| < end - start + 1
    ensures r.Some?
  {
    if r.None? {
      RangeSize(start, end);
      forall p | p in Range(start, end) ensures p in taken {
        assert start <= p <= end;
      }
      SubsetSize(Range(start, end), taken);
    }
  }

  // ---- runs --------------------------------------------------------------------------------------

  /** Rows by id, each with its port. */
  type Ports = map<string, int>

  function Taken(rows: Ports): set<int> { rows.Values }

  method ListTakenPorts(rows: Ports) returns (taken: set<int>)
    ensures taken == Taken(rows)
  {
    taken := {};
    var pending := rows.Keys;
    while pending != {}
      invariant pending <= rows.Keys
      invariant taken == set id | id in rows.Keys - pending :: rows[id]
      decreases |pending|
    {
      var id :| id in pending;
      taken := taken + {rows[id]};
      pending := pending - {id};
    }
  }

  datatype Op = Create(id: string) | Delete(id: string)

  /** One operation; a creation whose allocation fails, or whose id is taken, changes nothing. */
  ghost predicate Step(start: int, end: int, before: Ports, op: Op, after: Ports) {
    match op
    case Delete(id) => after == before - {id}
    case Create(id) =>
      exists port: Option<int> :: IsFirstFree(start, end, Taken(before), port) &&
        after == if port.Some? && id !in before then before[id := port.value] else before
  }

  ghost predicate IsRun(start: int, end: int, states: seq<Ports>, ops: seq<Op>) {
    && |states| == |ops| + 1 && states[0] == map[]
    && forall i :: 0 <= i < |ops| ==> Step(start, end, states[i], ops[i], states[i + 1])
  }

  ghost predicate PortsOk(start: int, end: int, rows: Ports) {
    && (forall id :: id in rows ==> start <= rows[id] <= end)
    && (forall a, b :: a in rows && b in rows && rows[a] == rows[b] ==> a == b)
  }

  lemma StepKeepsPortsOk(start: int, end: int, before: Ports, op: Op, after: Ports)
    requires PortsOk(start, end, before) && Step(start, end, before, op, after)
    ensures PortsOk(start, end, after)
  {
    if op.Create? {
      var port: Option<int> :| IsFirstFree(start, end, Taken(before), port) &&
        after == if port.Some? && op.id !in before then before[op.id := port.value] else before;
      forall id | id in before ensures before[id] in Taken(before) {
      }
    }
  }

  /** Along any run of creations and deletions every row's port is in range and no two rows share one. */
  lemma {:induction false} RunKeepsPortsOk(start: int, end: int, states: seq<Ports>, ops: seq<Op>, i: nat)
    requires IsRun(start, end, states, ops) && i <= |ops|
    ensures PortsOk(start, end, states[i])
  {
    if i > 0 {
      RunKeepsPortsOk(start, end, states, ops, i - 1);
      StepKeepsPortsOk(start, end, states[i - 1], ops[i - 1], states[i]);
    }
  }

  lemma {:induction false} ValuesAtMostKeys(rows: Ports)
    ensures |rows.Values| <= |rows|
    decreases |rows|
  {
    if rows != map[] {
      var id :| id in rows;
      var rest := rows - {id};
      ValuesAtMostKeys(rest);
      assert rows.Values <= rest.Values + {rows[id]} by {
        forall v | v in rows.Values ensures v in rest.Values + {rows[id]} {
          var k :| k in rows && rows[k] == v;
          if k != id { assert k in rest && rest[k] == v; }
        }
      }
      SubsetSize(rows.Values, rest.Values + {rows[id]});
      assert rows.Keys == rest.Keys + {id};
    }
  }

  /** In any state of any run, a creation with a new id succeeds while fewer rows exist than the range
      has ports. */
  lemma CreationSucceeds(start: int, end: int, states: seq<Ports>, ops: seq<Op>, i: nat)
    requires IsRun(start, end, states, ops) && i < |ops| && ops[i].Create? && ops[i].id !in states[i]
    requires |states[i]| < end - start + 1
    ensures ops[i].id in states[i + 1]
  {
    var before, after, id := states[i], states[i + 1], ops[i].id;
    assert Step(start, end, before, ops[i], after);
    var port: Option<int> :| IsFirstFree(start, end, Taken(before), port) &&
      after == if port.Some? && id !in before then before[id := port.value] else before;
    ValuesAtMostKeys(before);
    Pigeonhole(start, end, Taken(before), port);
  }
}
