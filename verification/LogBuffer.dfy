/** The in-memory tail of a domain's log: fed in arbitrary chunks, read as whole lines, with a wake-up
    token per subscriber. */
module LogBuffer {

  newtype byte = x: int | 0 <= x < 256

  type Bytes = seq<byte>

  const NEWLINE: byte := 10

  // ---- the specification ---------------------------------------------------------------------

  /** strings.IndexByte for the newline. */
  function IndexNewline(s: Bytes): (r: int)
    ensures -1 <= r < |s|
  {
    if s == [] then -1
    else if s[0] == NEWLINE then 0
    else
      var k := IndexNewline(s[1..]);
      if k < 0 then -1 else k + 1
  }

  lemma {:induction false} IndexNewlineFinds(s: Bytes)
    ensures var r := IndexNewline(s);
            if r < 0 then NEWLINE !in s else s[r] == NEWLINE && NEWLINE !in s[..r]
  {
    if s != [] && s[0] != NEWLINE {
      IndexNewlineFinds(s[1..]);
      var k := IndexNewline(s[1..]);
      assert s == [s[0]] + s[1..];
      assert k >= 0 ==> s[..k + 1] == [s[0]] + s[1..][..k];
    }
  }

  /** The newline-terminated lines of a text, without their newlines. */
  function Complete(text: Bytes): seq<Bytes>
    decreases |text|
  {
    var idx := IndexNewline(text);
    if idx < 0 then [] else [text[..idx]] + Complete(text[idx + 1..])
  }

  /** What follows the last newline. */
  function Tail(text: Bytes): Bytes
    decreases |text|
  {
    var idx := IndexNewline(text);
    if idx < 0 then text else Tail(text[idx + 1..])
  }

  function LastN(n: nat, lines: seq<Bytes>): seq<Bytes> {
    if |lines| > n then lines[|lines| - n..] else lines
  }

  datatype Memory = Memory(lines: seq<Bytes>, partial: Bytes)

  const BLANK := Memory([], [])

  /** What one successful write makes of the memory. */
  function Feed(capacity: nat, m: Memory, p: Bytes): Memory {
    Memory(LastN(capacity, m.lines + Complete(m.partial + p)), Tail(m.partial + p))
  }

  function FeedAll(capacity: nat, m: Memory, chunks: seq<Bytes>): Memory
    decreases |chunks|
  {
    if chunks == [] then m else FeedAll(capacity, Feed(capacity, m, chunks[0]), chunks[1..])
  }

  function Flatten(chunks: seq<Bytes>): Bytes {
    if chunks == [] then [] else chunks[0] + Flatten(chunks[1..])
  }

  lemma {:induction false} IndexNewlineAppend(a: Bytes, b: Bytes)
    requires IndexNewline(a) >= 0
    ensures IndexNewline(a + b) == IndexNewline(a)
  {
    assert (a + b)[1..] == a[1..] + b;
    if a[0] != NEWLINE { IndexNewlineAppend(a[1..], b); }
  }

  /** Cutting a text anywhere changes neither its lines nor its tail. */
  lemma {:induction false} CompleteAppend(a: Bytes, b: Bytes)
    ensures Complete(a + b) == Complete(a) + Complete(Tail(a) + b)
    ensures Tail(a + b) == Tail(Tail(a) + b)
    decreases |a|
  {
    var idx := IndexNewline(a);
    if idx >= 0 {
      CompleteAppend(a[idx + 1..], b);
      FirstLineKept(a, b);
      Regroup([a[..idx]], Complete(a[idx + 1..]), Complete(Tail(a) + b));
    }
  }

  lemma Regroup(x: seq<Bytes>, y: seq<Bytes>, z: seq<Bytes>)
    ensures x + (y + z) == x + y + z
  {
  }

  lemma FirstLineKept(a: Bytes, b: Bytes)
    requires IndexNewline(a) >= 0
    ensures var idx := IndexNewline(a);
            && Complete(a + b) == [a[..idx]] + Complete(a[idx + 1..] + b)
            && Tail(a + b) == Tail(a[idx + 1..] + b)
  {
    var idx := IndexNewline(a);
    IndexNewlineAppend(a, b);
    assert (a + b)[..idx] == a[..idx];
    assert (a + b)[idx + 1..] == a[idx + 1..] + b;
  }

  lemma LastNConcat(n: nat, a: seq<Bytes>, b: seq<Bytes>)
    ensures LastN(n, LastN(n, a) + b) == LastN(n, a + b)
  {
    if |a| > n {
      var k := |a| - n;
      assert (a + b)[k..] == a[k..] + b;
      assert (a + b)[k..][|b|..] == (a + b)[k + |b|..];
    }
  }

  lemma NewlineCompletes(partial: Bytes, p: Bytes)
    requires NEWLINE in p
    ensures Complete(partial + p) != []
  {
    IndexNewlineFinds(partial + p);
    assert NEWLINE in partial + p;
  }

  /** What a write does to the ring, spelt out: the new lines go behind the old ones and the oldest go. */
  ghost predicate Ring(capacity: nat, before: seq<Bytes>, done: seq<Bytes>, after: seq<Bytes>) {
    && |after| == Smaller(capacity, |before| + |done|)
    && after == (before + done)[|before| + |done| - |after|..]
    && (done != [] && capacity > 0 ==> after != [] && after[|after| - 1] == done[|done| - 1])
  }

  lemma NewestLast(capacity: nat, lines: seq<Bytes>, done: seq<Bytes>)
    ensures Ring(capacity, lines, done, LastN(capacity, lines + done))
  {
  }

  /** Two writes are one write of both chunks. */
  lemma FeedTwice(capacity: nat, m: Memory, a: Bytes, b: Bytes)
    ensures Feed(capacity, Feed(capacity, m, a), b) == Feed(capacity, m, a + b)
  {
    var text := m.partial + a;
    assert m.partial + (a + b) == text + b;
    CompleteAppend(text, b);
    LinesTwice(capacity, m.lines, Complete(text), Complete(Tail(text) + b));
  }

  lemma LinesTwice(n: nat, lines: seq<Bytes>, a: seq<Bytes>, b: seq<Bytes>)
    ensures LastN(n, LastN(n, lines + a) + b) == LastN(n, lines + (a + b))
  {
    LastNConcat(n, lines + a, b);
    assert (lines + a) + b == lines + (a + b);
  }

  lemma {:induction false} FeedAllIsFeed(capacity: nat, m: Memory, chunks: seq<Bytes>)
    requires chunks != []
    ensures FeedAll(capacity, m, chunks) == Feed(capacity, m, Flatten(chunks))
    decreases |chunks|
  {
    if |chunks| == 1 {
      assert chunks[1..] == [] && chunks[0] + [] == chunks[0];
    } else {
      FeedAllIsFeed(capacity, Feed(capacity, m, chunks[0]), chunks[1..]);
      FeedTwice(capacity, m, chunks[0], Flatten(chunks[1..]));
    }
  }

  function Smaller(a: nat, b: nat): nat { if a < b then a else b }

  /** The lines with a newline behind each. */
  function Unlines(lines: seq<Bytes>): Bytes {
    if lines == [] then [] else lines[0] + [NEWLINE] + Unlines(lines[1..])
  }

  /** The lines and the rest give the text back, ... */
  lemma {:induction false} LinesRebuildText(text: Bytes)
    ensures Unlines(Complete(text)) + Tail(text) == text
    decreases |text|
  {
    var idx := IndexNewline(text);
    if idx < 0 {
      assert [] + text == text;
    } else {
      LinesRebuildText(text[idx + 1..]);
      CutOnce(text[..idx], text[idx + 1..], Complete(text[idx + 1..]), Tail(text[idx + 1..]));
      IndexNewlineFinds(text);
      CutAt(text, idx);
    }
  }

  lemma CutAt(text: Bytes, idx: nat)
    requires idx < |text| && text[idx] == NEWLINE
    ensures text == text[..idx] + [NEWLINE] + text[idx + 1..]
  {
  }

  /** ... and neither holds a newline: they are the text, cut at its newlines. */
  lemma {:induction false} LinesHoldNoNewline(text: Bytes)
    ensures (10 as byte) !in Tail(text)
    ensures forall line :: line in Complete(text) ==> (10 as byte) !in line
    decreases |text|
  {
    IndexNewlineFinds(text);
    if IndexNewline(text) >= 0 { LinesHoldNoNewline(text[IndexNewline(text) + 1..]); }
  }

  lemma CutOnce(line: Bytes, rest: Bytes, lines: seq<Bytes>, tail: Bytes)
    requires Unlines(lines) + tail == rest
    ensures Unlines([line] + lines) + tail == line + [NEWLINE] + rest
    ensures ([line] + lines)[0] == line && ([line] + lines)[1..] == lines
  {
    assert ([line] + lines)[1..] == lines;
  }

  /** The newest of all lines, as many as there are or fit. */
  ghost predicate Newest(capacity: nat, all: seq<Bytes>, lines: seq<Bytes>) {
    |lines| == Smaller(capacity, |all|) && lines == all[|all| - |lines|..]
  }

  /** After any sequence of writes the ring holds the newest complete lines of everything written, and partial
      the unfinished rest, however the bytes were cut into chunks. */
  lemma ChunkInvariance(capacity: nat, chunks: seq<Bytes>)
    ensures Newest(capacity, Complete(Flatten(chunks)), FeedAll(capacity, BLANK, chunks).lines)
    ensures FeedAll(capacity, BLANK, chunks).partial == Tail(Flatten(chunks))
  {
    if chunks != [] { FeedAllIsFeed(capacity, BLANK, chunks); }
    FedBlank(capacity, Flatten(chunks));
  }

  lemma FedBlank(capacity: nat, text: Bytes)
    ensures var m := Feed(capacity, BLANK, text); Newest(capacity, Complete(text), m.lines) && m.partial == Tail(text)
    ensures text == [] ==> Feed(capacity, BLANK, text) == BLANK
  {
    assert [] + text == text && [] + Complete(text) == Complete(text);
    NewestLast(capacity, [], Complete(text));
  }

  // ---- the code ------------------------------------------------------------------------------

  type Channel = nat

  class Buffer {
    const capacity: nat
    var lines: seq<Bytes>
    var partial: Bytes
    /** Bytes flushed to the file. */
    var file: Bytes
    /** Channels registered for updates, and those whose one-token buffer is full. */
    var subscribers: set<Channel>
    var full: set<Channel>
    var nextChannel: Channel
    /** What each subscriber was last shown, and who has taken a token and not read since. */
    ghost var shown: map<Channel, seq<Bytes>>
    ghost var reading: set<Channel>

    ghost function Mem(): Memory
      reads this
    {
      Memory(lines, partial)
    }

    /** The partial line is unfinished, the ring is within capacity, and no subscriber is left behind
        unnoticed. */
    ghost predicate Valid()
      reads this
    {
      && NEWLINE !in partial
      && |lines| <= capacity
      && (forall ch :: ch in subscribers ==>
            ch < nextChannel && ch in shown && (shown[ch] == lines || ch in full || ch in reading))
    }

    constructor (capacity: nat)
      ensures Valid() && this.capacity == capacity && Mem() == BLANK && subscribers == {} && full == {} && file == []
    {
      this.capacity := capacity;
      lines := [];
      partial := [];
      file := [];
      subscribers := {};
      full := {};
      nextChannel := 0;
      shown := map[];
      reading := {};
    }

    /** ok: whether the file takes the bytes; if not, it may still have taken the first few. Nothing is
        remembered then. */
    method Write(p: Bytes, ok: bool, taken: nat) returns (n: nat, failed: bool)
      requires Valid() && taken <= |p|
      modifies this`lines, this`partial, this`file, this`full
      ensures Valid()
      ensures failed == !ok
      ensures ok ==> n == |p| && Mem() == Feed(capacity, old(Mem()), p) && file == old(file) + p
      ensures !ok ==> n == 0 && Mem() == old(Mem()) && file == old(file) + p[..taken]
      ensures full == old(full) + if ok && NEWLINE in p then subscribers else {}
      ensures ok ==> Ring(capacity, old(lines), Complete(old(partial) + p), lines)
      ensures NEWLINE in p ==> Complete(old(partial) + p) != []
    {
      if NEWLINE in p { NewlineCompletes(partial, p); }
      if !ok {
        file := file + p[..taken];
        return 0, true;
      }
      file := file + p;
      NewestLast(capacity, lines, Complete(partial + p));
      Remember(p);
      return |p|, false;
    }

    /** The rest of Write, once the bytes are flushed. */
    method Remember(p: Bytes)
      requires Valid()
      modifies this`lines, this`partial, this`full
      ensures Valid()
      ensures Mem() == Feed(capacity, old(Mem()), p)
      ensures full == old(full) + if NEWLINE in p then subscribers else {}
    {
      var completed := AppendLines(p);
      if completed {
        Publish();
      }
    }

    /** The line-cutting loop. */
    method AppendLines(p: Bytes) returns (completed: bool)
      requires NEWLINE !in partial && |lines| <= capacity
      modifies this`lines, this`partial
      ensures Mem() == Feed(capacity, old(Mem()), p)
      ensures NEWLINE !in partial && |lines| <= capacity
      ensures completed <==> NEWLINE in p
      ensures !completed ==> lines == old(lines)
    {
      completed := false;
      ghost var text := partial + p;
      partial := partial + p;
      while true
        invariant |lines| <= capacity
        invariant Cut(capacity, lines, partial) == Cut(capacity, old(lines), text)
        invariant if completed then IndexNewline(text) >= 0 else lines == old(lines) && partial == text
        decreases |partial|
      {
        var idx := IndexNewline(partial);
        if idx < 0 {
          break;
        }
        completed := true;
        var line := partial[..idx];
        partial := partial[idx + 1..];
        Push(line);
      }
      CutIsFeed(capacity, old(lines), text);
      CutMeansNewline(old(partial), p, partial);
    }

    /** One more line in the ring. */
    method Push(line: Bytes)
      modifies this`lines
      ensures lines == LastN(capacity, old(lines) + [line]) && |lines| <= capacity
    {
      lines := lines + [line];
      if |lines| > capacity {
        lines := lines[|lines| - capacity..];
      }
    }

    /** One token to every subscriber that has none. */
    method Publish()
      modifies this`full
      ensures full == old(full) + subscribers
    {
      var pending := subscribers;
      while pending != {}
        invariant pending <= subscribers
        invariant full == old(full) + (subscribers - pending)
        decreases |pending|
      {
        var subscriber :| subscriber in pending;
        if subscriber !in full {
          full := full + {subscriber};
        }
        pending := pending - {subscriber};
      }
    }

    method SnapshotAndSubscribe() returns (snapshot: seq<Bytes>, updates: Channel)
      requires Valid()
      modifies this`subscribers, this`nextChannel, this`shown
      ensures Valid() && snapshot == lines && updates == old(nextChannel)
      ensures subscribers == old(subscribers) + {updates} && shown == old(shown)[updates := lines]
    {
      updates := nextChannel;
      nextChannel := nextChannel + 1;
      subscribers := subscribers + {updates};
      shown := shown[updates := lines];
      snapshot := lines;
    }

    method Cancel(updates: Channel)
      requires Valid()
      modifies this`subscribers
      ensures Valid() && subscribers == old(subscribers) - {updates}
    {
      subscribers := subscribers - {updates};
    }

    /** The reader's receive. */
    method Take(updates: Channel)
      requires Valid() && updates in full
      modifies this`full, this`reading
      ensures Valid() && full == old(full) - {updates} && reading == old(reading) + {updates}
    {
      full := full - {updates};
      reading := reading + {updates};
    }

    /** The reader's Lines call after a token, whose result it sends on. */
    method Lines(updates: Channel) returns (out: seq<Bytes>)
      requires Valid() && updates in reading
      modifies this`shown, this`reading
      ensures Valid() && out == lines
      ensures shown == old(shown)[updates := lines] && reading == old(reading) - {updates}
    {
      out := lines;
      shown := shown[updates := lines];
      reading := reading - {updates};
    }
  }

  /** The loop as a recursion. */
  function Cut(capacity: nat, lines: seq<Bytes>, partial: Bytes): Memory
    decreases |partial|
  {
    var idx := IndexNewline(partial);
    if idx < 0 then Memory(lines, partial)
    else Cut(capacity, LastN(capacity, lines + [partial[..idx]]), partial[idx + 1..])
  }

  lemma {:induction false} CutIsFeed(capacity: nat, lines: seq<Bytes>, text: Bytes)
    requires |lines| <= capacity
    ensures Cut(capacity, lines, text) == Memory(LastN(capacity, lines + Complete(text)), Tail(text))
    decreases |text|
  {
    var idx := IndexNewline(text);
    if idx < 0 {
      assert Complete(text) == [] && lines + Complete(text) == lines;
    } else {
      var line, rest := text[..idx], text[idx + 1..];
      var kept := LastN(capacity, lines + [line]);
      CutIsFeed(capacity, kept, rest);
      FeedLine(capacity, lines, line, text, rest);
    }
  }

  /** The next line goes into the ring first, or with all the others. */
  lemma FeedLine(capacity: nat, lines: seq<Bytes>, line: Bytes, text: Bytes, rest: Bytes)
    requires Complete(text) == [line] + Complete(rest)
    ensures LastN(capacity, LastN(capacity, lines + [line]) + Complete(rest)) == LastN(capacity, lines + Complete(text))
  {
    LinesTwice(capacity, lines, [line], Complete(rest));
  }

  lemma CutMeansNewline(partial: Bytes, p: Bytes, rest: Bytes)
    requires NEWLINE !in partial && IndexNewline(rest) < 0
    ensures IndexNewline(partial + p) >= 0 <==> NEWLINE in p
    ensures NEWLINE !in rest
  {
    IndexNewlineFinds(partial + p);
    IndexNewlineFinds(rest);
    var text := partial + p;
    if IndexNewline(text) >= 0 { assert NEWLINE in text; }
  }
}
