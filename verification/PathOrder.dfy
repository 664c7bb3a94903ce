/** The two orders routes are kept in: Go's comparator (byte length descending, then text) and
    SQLite's ORDER BY (code point length descending, then text).

    A path is a sequence of code points; ByteLen is the length of its UTF-8 form, which is what
    Go's len counts, while |path| is what SQLite's LENGTH counts. */
module PathOrder {
  import opened Prelude

  function Width(c: char): (n: nat)
    ensures 1 <= n <= 4
  {
    var code := c as int;
    if code < 0x80 then 1 else if code < 0x800 then 2 else if code < 0x1_0000 then 3 else 4
  }

  function ByteLen(s: string): nat {
    if s == "" then 0 else Width(s[0]) + ByteLen(s[1..])
  }

  lemma {:induction false} ByteLenConcat(a: string, b: string)
    ensures ByteLen(a + b) == ByteLen(a) + ByteLen(b)
  {
    if a == "" {
      assert a + b == b;
    } else {
      ByteLenConcat(a[1..], b);
      assert (a + b)[1..] == a[1..] + b;
    }
  }

  lemma {:induction false} ByteLenBounds(a: string)
    ensures |a| <= ByteLen(a) <= 4 * |a|
  {
    if a != "" { ByteLenBounds(a[1..]); }
  }

  predicate LexLess(a: string, b: string) {
    if b == "" then false
    else if a == "" then true
    else a[0] < b[0] || (a[0] == b[0] && LexLess(a[1..], b[1..]))
  }

  /** The comparator of sort.Slice in the normaliser and in the proxy's index. */
  predicate Before(a: string, b: string) {
    ByteLen(a) > ByteLen(b) || (ByteLen(a) == ByteLen(b) && LexLess(a, b))
  }

  /** ORDER BY LENGTH(path) DESC, path ASC. */
  predicate SqlBefore(a: string, b: string) {
    |a| > |b| || (|a| == |b| && LexLess(a, b))
  }

  /** At the first difference the smaller character decides, and an extension comes later. */
  lemma {:induction false} LexByFirstDifference(p: string, x: char, a: string, y: char, b: string)
    ensures LexLess(p + [x] + a, p + [y] + b) <==> x < y || (x == y && LexLess(a, b))
    ensures LexLess(p, p + [x] + a) && !LexLess(p + [x] + a, p)
  {
    var s, t := p + [x] + a, p + [y] + b;
    if p == "" {
      assert s[1..] == a && t[1..] == b;
    } else {
      LexByFirstDifference(p[1..], x, a, y, b);
      assert s[1..] == p[1..] + [x] + a && t[1..] == p[1..] + [y] + b;
    }
  }

  /** Longer in bytes comes first, and among equally long paths the lexically smaller. */
  lemma BeforeByLength(a: string, b: string)
    ensures ByteLen(a) > ByteLen(b) ==> Before(a, b)
    ensures ByteLen(a) == ByteLen(b) ==> (Before(a, b) <==> LexLess(a, b))
    ensures |a| > |b| ==> SqlBefore(a, b)
    ensures |a| == |b| ==> (SqlBefore(a, b) <==> LexLess(a, b))
  {
  }

  lemma {:induction false} LexTotal(a: string, b: string)
    ensures !(LexLess(a, b) && LexLess(b, a))
    ensures a == b || LexLess(a, b) || LexLess(b, a)
    ensures a == b ==> !LexLess(a, b)
  {
    if a != "" && b != "" {
      LexTotal(a[1..], b[1..]);
      if a[0] == b[0] && a[1..] == b[1..] {
        assert a == [a[0]] + a[1..] == b;
      }
    }
  }

  lemma {:induction false} LexTransitive(a: string, b: string, c: string)
    requires LexLess(a, b) && LexLess(b, c)
    ensures LexLess(a, c)
  {
    if a != "" && b != "" && c != "" && a[0] == b[0] == c[0] {
      LexTransitive(a[1..], b[1..], c[1..]);
    }
  }

  /** Go's comparator is a strict total order on distinct paths. */
  lemma BeforeStrictTotal(a: string, b: string, c: string)
    ensures !Before(a, a)
    ensures Before(a, b) ==> !Before(b, a)
    ensures a != b ==> Before(a, b) || Before(b, a)
    ensures Before(a, b) && Before(b, c) ==> Before(a, c)
  {
    LexTotal(a, a);
    LexTotal(a, b);
    if LexLess(a, b) && LexLess(b, c) { LexTransitive(a, b, c); }
  }

  /** No path stands in front of a longer path that it is a proper prefix of. */
  ghost predicate NoPrefixFirst(paths: seq<string>) {
    forall i, j :: 0 <= i < j < |paths| ==> !(paths[i] < paths[j])
  }

  lemma {:induction false} GoOrderPutsLongerFirst(paths: seq<string>)
    requires forall i, j :: 0 <= i < j < |paths| ==> !Before(paths[j], paths[i])
    ensures NoPrefixFirst(paths)
  {
    forall i, j | 0 <= i < j < |paths| ensures !(paths[i] < paths[j]) {
      if paths[i] < paths[j] {
        var rest := paths[j][|paths[i]|..];
        assert paths[j] == paths[i] + rest;
        ByteLenConcat(paths[i], rest);
        ByteLenBounds(rest);
        assert Before(paths[j], paths[i]);
      }
    }
  }

  /** The order of ORDER BY LENGTH(path) DESC, path ASC. */
  ghost predicate SqlSorted(paths: seq<string>) {
    forall i, j :: 0 <= i < j < |paths| ==> !SqlBefore(paths[j], paths[i])
  }

  lemma SqlOrderPutsLongerFirst(paths: seq<string>)
    requires SqlSorted(paths)
    ensures NoPrefixFirst(paths)
  {
    forall i, j | 0 <= i < j < |paths| ensures !(paths[i] < paths[j]) {
      if paths[i] < paths[j] { assert SqlBefore(paths[j], paths[i]); }
    }
  }

  /** The two orders really differ: two bytes of one code point against one byte each. */
  lemma OrdersDiffer()
    ensures Before("/\U{E9}\U{E9}", "/abc")
    ensures SqlBefore("/abc", "/\U{E9}\U{E9}")
  {
    var a, b := "/\U{E9}\U{E9}", "/abc";
    assert ByteLen(b[3..]) == 1;
    assert ByteLen(b[2..]) == 2 by { assert b[2..][1..] == b[3..]; }
    assert ByteLen(b[1..]) == 3 by { assert b[1..][1..] == b[2..]; }
    assert ByteLen(b) == 4;
    assert ByteLen(a[2..]) == 2;
    assert ByteLen(a[1..]) == 4 by { assert a[1..][1..] == a[2..]; }
    assert ByteLen(a) == 5;
  }

  // ---- sorting by a path key -----------------------------------------------------------------

  function Insert<T>(key: T -> string, x: T, s: seq<T>): seq<T> {
    if s == [] then [x]
    else if Before(key(s[0]), key(x)) then [s[0]] + Insert(key, x, s[1..])
    else [x] + s
  }

  /** What sort.Slice computes. On distinct keys it is the only answer (SortedUnique). */
  function Sort<T>(key: T -> string, s: seq<T>): seq<T> {
    if s == [] then [] else Insert(key, s[0], Sort(key, s[1..]))
  }

  ghost predicate Sorted<T>(key: T -> string, s: seq<T>) {
    forall i, j :: 0 <= i < j < |s| ==> !Before(key(s[j]), key(s[i]))
  }

  lemma {:induction false} InsertMultiset<T>(key: T -> string, x: T, s: seq<T>)
    ensures multiset(Insert(key, x, s)) == multiset(s) + multiset{x}
  {
    if s != [] && Before(key(s[0]), key(x)) {
      InsertMultiset(key, x, s[1..]);
      assert s == [s[0]] + s[1..];
    }
  }

  lemma {:induction false} SortMultiset<T>(key: T -> string, s: seq<T>)
    ensures multiset(Sort(key, s)) == multiset(s)
    ensures |Sort(key, s)| == |s|
  {
    if s != [] {
      SortMultiset(key, s[1..]);
      InsertMultiset(key, s[0], Sort(key, s[1..]));
      assert s == [s[0]] + s[1..];
    }
    assert |Sort(key, s)| == |multiset(Sort(key, s))| == |multiset(s)| == |s|;
  }

  lemma {:induction false} InsertSorted<T>(key: T -> string, x: T, s: seq<T>)
    requires Sorted(key, s)
    ensures Sorted(key, Insert(key, x, s))
  {
    if s == [] {
    } else if Before(key(s[0]), key(x)) {
      var rest := Insert(key, x, s[1..]);
      InsertSorted(key, x, s[1..]);
      InsertMultiset(key, x, s[1..]);
      forall j | 0 <= j < |rest| ensures !Before(key(rest[j]), key(s[0])) {
        assert rest[j] in multiset(rest);
        assert rest[j] == x || rest[j] in s[1..];
        BeforeStrictTotal(key(s[0]), key(x), key(x));
      }
    } else {
      forall j | 0 <= j < |s| ensures !Before(key(s[j]), key(x)) {
        BeforeStrictTotal(key(s[0]), key(s[j]), key(x));
        BeforeStrictTotal(key(s[j]), key(x), key(s[0]));
        BeforeStrictTotal(key(s[j]), key(s[0]), key(x));
      }
    }
  }

  lemma {:induction false} SortSorted<T>(key: T -> string, s: seq<T>)
    ensures Sorted(key, Sort(key, s))
  {
    if s != [] {
      SortSorted(key, s[1..]);
      InsertSorted(key, s[0], Sort(key, s[1..]));
    }
  }

  ghost predicate KeysDistinct<T>(key: T -> string, s: seq<T>) {
    forall i, j :: 0 <= i < j < |s| ==> key(s[i]) != key(s[j])
  }

  lemma SortedSameHead<T>(key: T -> string, a: seq<T>, b: seq<T>)
    requires Sorted(key, a) && Sorted(key, b)
    requires KeysDistinct(key, a) && multiset(a) == multiset(b) && a != [] && b != []
    ensures a[0] == b[0]
  {
    assert a[0] in multiset(b) && b[0] in multiset(a);
    var j :| 0 <= j < |b| && b[j] == a[0];
    var i :| 0 <= i < |a| && a[i] == b[0];
    BeforeStrictTotal(key(a[0]), key(b[0]), key(a[0]));
  }

  lemma {:induction false} SortedUnique<T>(key: T -> string, a: seq<T>, b: seq<T>)
    requires Sorted(key, a) && Sorted(key, b)
    requires KeysDistinct(key, a) && multiset(a) == multiset(b)
    ensures a == b
  {
    assert |a| == |multiset(a)| == |multiset(b)| == |b|;
    if a != [] {
      SortedSameHead(key, a, b);
      assert a == [a[0]] + a[1..] && b == [a[0]] + b[1..];
      MultisetCancel(a[0], a[1..], b[1..]);
      SortedUnique(key, a[1..], b[1..]);
    }
  }
}
