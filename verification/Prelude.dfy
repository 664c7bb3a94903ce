/** Small vocabulary shared by every other module: optional values, results, the prefix relation
    on strings, and the multiset facts that the order-independence proofs rest on. */
module Prelude {

  datatype Option<+T> = None | Some(value: T)

  datatype Result<+T, +E> = Ok(value: T) | Err(error: E)

  function MapSeq<A, B>(f: A -> B, s: seq<A>): (r: seq<B>)
    ensures |r| == |s|
    ensures forall i :: 0 <= i < |s| ==> r[i] == f(s[i])
  {
    seq(|s|, i requires 0 <= i < |s| => f(s[i]))
  }

  ghost predicate Distinct<T(!new)>(s: seq<T>) {
    forall i, j :: 0 <= i < j < |s| ==> s[i] != s[j]
  }

  lemma {:induction false} DistinctMultiset<T(!new)>(s: seq<T>)
    ensures Distinct(s) <==> forall x :: multiset(s)[x] <= 1
  {
    if s == [] {
    } else {
      var rest := s[1..];
      DistinctMultiset(rest);
      assert s == [s[0]] + rest;
      assert forall i :: 0 <= i < |rest| ==> rest[i] == s[i + 1];
      if Distinct(s) {
        assert s[0] !in rest;
        assert s[0] !in multiset(rest);
        forall x ensures multiset(s)[x] <= 1 {
          assert multiset(s)[x] == multiset([s[0]])[x] + multiset(rest)[x];
        }
      } else if Distinct(rest) {
        forall i, j | 0 < i < j < |s| ensures s[i] != s[j] {
          assert rest[i - 1] != rest[j - 1];
        }
        var i, j :| 0 <= i < j < |s| && s[i] == s[j];
        assert s[0] == rest[j - 1];
        assert s[0] in multiset(rest);
        assert multiset(s)[s[0]] >= 2;
      } else {
        var x :| multiset(rest)[x] > 1;
        assert multiset(s)[x] > 1;
      }
    }
  }

  lemma MultisetCancel<A>(x: A, a: seq<A>, b: seq<A>)
    requires multiset([x] + a) == multiset([x] + b)
    ensures multiset(a) == multiset(b)
  {
    assert multiset([x] + a) == multiset{x} + multiset(a);
    assert multiset([x] + b) == multiset{x} + multiset(b);
    assert multiset(a) == multiset([x] + a) - multiset{x};
    assert multiset(b) == multiset([x] + b) - multiset{x};
  }

  function Without<A>(s: seq<A>, k: nat): (r: seq<A>)
    requires k < |s|
  {
    s[..k] + s[k + 1..]
  }

  /** Moving element k to the front does not change the multiset. */
  lemma MultisetPull<A>(s: seq<A>, k: nat)
    requires k < |s|
    ensures multiset(s) == multiset([s[k]] + Without(s, k))
  {
    assert s == s[..k] + ([s[k]] + s[k + 1..]);
  }

  lemma MapPull<A, B>(f: A -> B, s: seq<A>, k: nat)
    requires k < |s|
    ensures Without(MapSeq(f, s), k) == MapSeq(f, Without(s, k))
  {
  }

  lemma {:induction false} MapMultiset<A, B>(f: A -> B, a: seq<A>, b: seq<A>)
    requires multiset(a) == multiset(b)
    ensures multiset(MapSeq(f, a)) == multiset(MapSeq(f, b))
  {
    if a == [] {
      assert |b| == |multiset(b)| == 0;
    } else {
      assert a[0] in multiset(b);
      var k :| 0 <= k < |b| && b[k] == a[0];
      SameWithout(a, b, k);
      MapMultiset(f, a[1..], Without(b, k));
      MapPull(f, b, k);
      MultisetPull(MapSeq(f, b), k);
      assert MapSeq(f, a) == [f(a[0])] + MapSeq(f, a[1..]);
    }
  }

  lemma SameWithout<A>(a: seq<A>, b: seq<A>, k: nat)
    requires a != [] && k < |b| && b[k] == a[0] && multiset(a) == multiset(b)
    ensures multiset(a[1..]) == multiset(Without(b, k))
  {
    assert a == [a[0]] + a[1..];
    MultisetPull(b, k);
    MultisetCancel(a[0], a[1..], Without(b, k));
  }

  /** Finite sets of known size: used where a count of threads or rows is compared with a number. */
  lemma {:induction false} SubsetSize<T>(a: set<T>, b: set<T>)
    requires a <= b
    ensures |a| <= |b|
    ensures |a| == |b| ==> a == b
  {
    assert b == a + (b - a);
  }
}
