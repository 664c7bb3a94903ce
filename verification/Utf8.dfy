/** UTF-8 (RFC 3629, section 3): what Go's len counts and what its string comparison compares. */
module Utf8 {
  import opened PathOrder

  function EncodeChar(c: char): (r: seq<int>)
    ensures forall b :: b in r ==> 0 <= b < 0x100
  {
    var u := c as int;
    if u < 0x80 then [u] else if u < 0x800 then Two(u) else if u < 0x1_0000 then Three(u) else Four(u)
  }

  function Encode(s: string): seq<int> {
    if s == "" then [] else EncodeChar(s[0]) + Encode(s[1..])
  }

  /** Go's < on strings: byte by byte, a prefix first. */
  predicate BytesLess(a: seq<int>, b: seq<int>) {
    if b == [] then false
    else if a == [] then true
    else a[0] < b[0] || (a[0] == b[0] && BytesLess(a[1..], b[1..]))
  }

  /** ByteLen is the length of the encoding. */
  lemma {:induction false} ByteLenIsEncoded(s: string)
    ensures |Encode(s)| == ByteLen(s)
  {
    if s != "" { ByteLenIsEncoded(s[1..]); }
  }

  lemma {:induction false} SamePrefix(p: seq<int>, a: seq<int>, b: seq<int>)
    ensures BytesLess(p + a, p + b) <==> BytesLess(a, b)
  {
    if p == [] {
      assert p + a == a && p + b == b;
    } else {
      assert (p + a)[1..] == p[1..] + a && (p + b)[1..] == p[1..] + b;
      SamePrefix(p[1..], a, b);
    }
  }

  /** Where the first difference is decides. */
  lemma FirstDifference(p: seq<int>, x: int, a: seq<int>, y: int, b: seq<int>)
    requires x < y
    ensures BytesLess(p + ([x] + a), p + ([y] + b)) && !BytesLess(p + ([y] + b), p + ([x] + a))
  {
    SamePrefix(p, [x] + a, [y] + b);
    SamePrefix(p, [y] + b, [x] + a);
  }

  /** The encodings of two characters part where the smaller one has the smaller byte. */
  lemma CharsPart(c: char, d: char) returns (p: seq<int>, x: int, a: seq<int>, y: int, b: seq<int>)
    requires c < d
    ensures EncodeChar(c) == p + ([x] + a) && EncodeChar(d) == p + ([y] + b) && x < y
  {
    var s, t := EncodeChar(c), EncodeChar(d);
    var k := FirstPart(c, d);
    p, x, a, y, b := s[..k], s[k], s[k + 1..], t[k], t[k + 1..];
  }

  lemma FirstPart(c: char, d: char) returns (k: nat)
    requires c < d
    ensures var s, t := EncodeChar(c), EncodeChar(d);
            k < |s| && k < |t| && s[k] < t[k] && s[..k] == t[..k]
  {
    var u, v := c as int, d as int;
    if Width(c) < Width(d) {
      LeadByte(c);
      LeadByte(d);
      k := 0;
    } else if u < 0x80 {
      k := 0;
    } else if u < 0x800 {
      k := PartTwo(u, v);
    } else if u < 0x1_0000 {
      k := PartThree(u, v);
    } else {
      k := PartFour(u, v);
    }
  }

  /** The first byte tells the width. */
  lemma LeadByte(c: char)
    ensures var b := EncodeChar(c)[0];
            match Width(c)
            case 1 => b < 0x80
            case 2 => 0xC0 <= b < 0xE0
            case 3 => 0xE0 <= b < 0xF0
            case _ => 0xF0 <= b
  {
  }

  lemma Digits(u: int, v: int)
    requires 0 <= u < v
    ensures u / 0x40 < v / 0x40 || (u / 0x40 == v / 0x40 && u % 0x40 < v % 0x40)
  {
  }

  lemma Nested(u: int)
    requires 0 <= u
    ensures u / 0x40 / 0x40 == u / 0x1000 && u / 0x1000 / 0x40 == u / 0x4_0000 == u / 0x40 / 0x1000
  {
  }

  function Two(u: int): seq<int> { [0xC0 + u / 0x40, 0x80 + u % 0x40] }

  function Three(u: int): seq<int> { [0xE0 + u / 0x1000, 0x80 + u / 0x40 % 0x40, 0x80 + u % 0x40] }

  function Four(u: int): seq<int> {
    [0xF0 + u / 0x4_0000, 0x80 + u / 0x1000 % 0x40, 0x80 + u / 0x40 % 0x40, 0x80 + u % 0x40]
  }

  lemma PartTwo(u: int, v: int) returns (k: nat)
    requires 0 <= u < v
    ensures k < 2 && Two(u)[k] < Two(v)[k] && forall j :: 0 <= j < k ==> Two(u)[j] == Two(v)[j]
  {
    Digits(u, v);
    k := if u / 0x40 < v / 0x40 then 0 else 1;
  }

  lemma PartThree(u: int, v: int) returns (k: nat)
    requires 0 <= u < v
    ensures k < 3 && Three(u)[k] < Three(v)[k] && forall j :: 0 <= j < k ==> Three(u)[j] == Three(v)[j]
  {
    Digits(u, v);
    Nested(u);
    Nested(v);
    if u / 0x40 < v / 0x40 {
      Digits(u / 0x40, v / 0x40);
      k := if u / 0x1000 < v / 0x1000 then 0 else 1;
    } else {
      k := 2;
    }
  }

  /** The first three of four digits are those of the number without its last one. */
  lemma Shifted(u: int)
    requires 0 <= u
    ensures Four(u)[0] == Three(u / 0x40)[0] + 0x10
    ensures Four(u)[1] == Three(u / 0x40)[1] && Four(u)[2] == Three(u / 0x40)[2]
  {
    Nested(u);
  }

  lemma PartFour(u: int, v: int) returns (k: nat)
    requires 0 <= u < v
    ensures k < 4 && Four(u)[k] < Four(v)[k] && forall j :: 0 <= j < k ==> Four(u)[j] == Four(v)[j]
  {
    Shifted(u);
    Shifted(v);
    Digits(u, v);
    if u / 0x40 < v / 0x40 {
      k := PartThree(u / 0x40, v / 0x40);
      LeadingEqual(Four(u), Four(v), Three(u / 0x40), Three(v / 0x40), k);
    } else {
      k := 3;
    }
  }

  lemma LeadingEqual(f: seq<int>, g: seq<int>, s: seq<int>, t: seq<int>, k: nat)
    requires |f| == |g| == 4 && |s| == |t| == 3 && k < 3
    requires f[0] == s[0] + 0x10 && f[1] == s[1] && f[2] == s[2]
    requires g[0] == t[0] + 0x10 && g[1] == t[1] && g[2] == t[2]
    requires s[k] < t[k] && forall j :: 0 <= j < k ==> s[j] == t[j]
    ensures f[k] < g[k] && forall j :: 0 <= j < k ==> f[j] == g[j]
  {
  }

  lemma CharOrder(c: char, d: char, a: seq<int>, b: seq<int>)
    requires c < d
    ensures BytesLess(EncodeChar(c) + a, EncodeChar(d) + b) && !BytesLess(EncodeChar(d) + b, EncodeChar(c) + a)
  {
    var p, x, r, y, q := CharsPart(c, d);
    assert EncodeChar(c) + a == p + ([x] + (r + a)) && EncodeChar(d) + b == p + ([y] + (q + b));
    FirstDifference(p, x, r + a, y, q + b);
  }

  /** The order of the bytes is the order of the code points. */
  lemma {:induction false} ByteOrderIsCodePointOrder(a: string, b: string)
    ensures BytesLess(Encode(a), Encode(b)) <==> LexLess(a, b)
  {
    if a != "" && b != "" {
      ByteOrderIsCodePointOrder(a[1..], b[1..]);
      if a[0] < b[0] {
        CharOrder(a[0], b[0], Encode(a[1..]), Encode(b[1..]));
      } else if b[0] < a[0] {
        CharOrder(b[0], a[0], Encode(b[1..]), Encode(a[1..]));
      } else {
        SamePrefix(EncodeChar(a[0]), Encode(a[1..]), Encode(b[1..]));
      }
    }
  }

  /** So the normaliser's comparator is the one Go computes on the bytes. */
  lemma BeforeOnBytes(a: string, b: string)
    ensures Before(a, b) <==>
            |Encode(a)| > |Encode(b)| || (|Encode(a)| == |Encode(b)| && BytesLess(Encode(a), Encode(b)))
  {
    ByteLenIsEncoded(a);
    ByteLenIsEncoded(b);
    ByteOrderIsCodePointOrder(a, b);
  }
}
