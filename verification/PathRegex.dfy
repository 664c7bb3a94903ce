/** The regular expressions published to Cloudflare and what they match. Matching is RE2's without flags:
    '.' excludes the newline and '^', '$' are the ends of the text. */
module PathRegex {
  datatype Regex =
    | Empty
    | Lit(c: char)
    | AnyChar
    | Concat(left: Regex, right: Regex)
    | Star(body: Regex)
    | Optional(body: Regex)
    | TextStart
    | TextEnd

  /** re matches s[i..j]. */
  ghost predicate Matches(re: Regex, s: string, i: nat, j: nat)
    requires i <= j <= |s|
    decreases re, j - i
  {
    match re
    case Empty => i == j
    case Lit(c) => j == i + 1 && s[i] == c
    case AnyChar => j == i + 1 && s[i] != '\n'
    case Concat(a, b) => exists k :: i <= k <= j && Matches(a, s, i, k) && Matches(b, s, k, j)
    case Star(a) => i == j || exists k :: i < k <= j && Matches(a, s, i, k) && Matches(re, s, k, j)
    case Optional(a) => i == j || Matches(a, s, i, j)
    case TextStart => i == j == 0
    case TextEnd => i == j == |s|
  }

  /** regexp.MatchString: an unanchored search. */
  ghost predicate MatchString(re: Regex, s: string) {
    exists i, j :: 0 <= i <= j <= |s| && Matches(re, s, i, j)
  }

  // ---- the pattern of a path -------------------------------------------------------------------

  const TAIL_GROUP := Concat(Lit('/'), Concat(Star(AnyChar), Empty))
  const TAIL := Concat(Optional(TAIL_GROUP), Concat(TextEnd, Empty))

  function Literals(path: string, tail: Regex): Regex {
    if path == "" then tail else Concat(Lit(path[0]), Literals(path[1..], tail))
  }

  function Pattern(path: string): Regex {
    Concat(TextStart, Literals(path, TAIL))
  }

  // ---- what it matches -------------------------------------------------------------------------

  lemma ConcatSplit(a: Regex, b: Regex, s: string, i: nat, j: nat) returns (k: nat)
    requires i <= j <= |s| && Matches(Concat(a, b), s, i, j)
    ensures i <= k <= j && Matches(a, s, i, k) && Matches(b, s, k, j)
  {
    var re := Concat(a, b);
    assert re.left == a && re.right == b;
    k :| i <= k <= j && Matches(re.left, s, i, k) && Matches(re.right, s, k, j);
  }

  lemma ConcatJoin(a: Regex, b: Regex, s: string, i: nat, k: nat, j: nat)
    requires i <= k <= j <= |s| && Matches(a, s, i, k) && Matches(b, s, k, j)
    ensures Matches(Concat(a, b), s, i, j)
  {
  }

  lemma StarSplit(a: Regex, s: string, i: nat, j: nat) returns (k: nat)
    requires i < j <= |s| && Matches(Star(a), s, i, j)
    ensures i < k <= j && Matches(a, s, i, k) && Matches(Star(a), s, k, j)
  {
    var re := Star(a);
    assert re.body == a;
    k :| i < k <= j && Matches(re.body, s, i, k) && Matches(re, s, k, j);
  }

  lemma StarJoin(a: Regex, s: string, i: nat, k: nat, j: nat)
    requires i < k <= j <= |s| && Matches(a, s, i, k) && Matches(Star(a), s, k, j)
    ensures Matches(Star(a), s, i, j)
  {
  }

  lemma {:induction false} StarAny(s: string, i: nat, j: nat)
    requires i <= j <= |s|
    ensures Matches(Star(AnyChar), s, i, j) <==> forall k :: i <= k < j ==> s[k] != '\n'
    decreases j - i
  {
    if i < j {
      StarAny(s, i + 1, j);
      if Matches(Star(AnyChar), s, i, j) {
        var k := StarSplit(AnyChar, s, i, j);
      }
      if forall k :: i <= k < j ==> s[k] != '\n' {
        StarJoin(AnyChar, s, i, i + 1, j);
      }
    }
  }

  lemma TailGroupMatches(s: string, i: nat, j: nat)
    requires i <= j <= |s|
    ensures Matches(TAIL_GROUP, s, i, j) <==> i < j && s[i] == '/' && forall k :: i < k < j ==> s[k] != '\n'
  {
    var rest := Concat(Star(AnyChar), Empty);
    if Matches(TAIL_GROUP, s, i, j) {
      var k := ConcatSplit(Lit('/'), rest, s, i, j);
      var m := ConcatSplit(Star(AnyChar), Empty, s, k, j);
      StarAny(s, k, j);
    }
    if i < j && s[i] == '/' && forall k :: i < k < j ==> s[k] != '\n' {
      StarAny(s, i + 1, j);
      ConcatJoin(Star(AnyChar), Empty, s, i + 1, j, j);
      ConcatJoin(Lit('/'), rest, s, i, i + 1, j);
    }
  }

  lemma TailMatches(s: string, i: nat, j: nat)
    requires i <= j <= |s|
    ensures Matches(TAIL, s, i, j) <==>
            j == |s| && (i == j || (s[i] == '/' && forall k :: i < k < j ==> s[k] != '\n'))
  {
    var ending := Concat(TextEnd, Empty);
    if Matches(TAIL, s, i, j) {
      var k := ConcatSplit(Optional(TAIL_GROUP), ending, s, i, j);
      var m := ConcatSplit(TextEnd, Empty, s, k, j);
      TailGroupMatches(s, i, k);
    }
    if j == |s| && (i == j || (s[i] == '/' && forall k :: i < k < j ==> s[k] != '\n')) {
      TailGroupMatches(s, i, j);
      ConcatJoin(TextEnd, Empty, s, j, j, j);
      ConcatJoin(Optional(TAIL_GROUP), ending, s, i, j, j);
    }
  }

  /** path stands at position i of s. */
  predicate StandsAt(path: string, s: string, i: nat) {
    i + |path| <= |s| && s[i..i + |path|] == path
  }

  lemma StandsAtStep(path: string, s: string, i: nat)
    requires path != "" && i < |s|
    ensures StandsAt(path, s, i) <==> s[i] == path[0] && StandsAt(path[1..], s, i + 1)
  {
    if i + |path| <= |s| {
      assert s[i..i + |path|] == [s[i]] + s[i + 1..i + |path|];
      assert path == [path[0]] + path[1..];
    }
  }

  lemma {:induction false} LiteralsMatch(path: string, tail: Regex, s: string, i: nat, j: nat)
    requires i <= j <= |s|
    ensures Matches(Literals(path, tail), s, i, j) <==>
            i + |path| <= j && StandsAt(path, s, i) && Matches(tail, s, i + |path|, j)
  {
    if path == "" {
      assert s[i..i] == "";
    } else {
      var rest := Literals(path[1..], tail);
      if i < j {
        LiteralsMatch(path[1..], tail, s, i + 1, j);
        StandsAtStep(path, s, i);
        if s[i] == path[0] && Matches(rest, s, i + 1, j) {
          ConcatJoin(Lit(path[0]), rest, s, i, i + 1, j);
        }
      }
      if Matches(Literals(path, tail), s, i, j) {
        var k := ConcatSplit(Lit(path[0]), rest, s, i, j);
      }
    }
  }

  predicate NewlineFree(s: string) { '\n' !in s }

  /** The published expression matches the literal prefix itself and whatever follows it after a
      slash, as long as that remainder holds no newline. */
  lemma PatternMatches(path: string, s: string)
    ensures MatchString(Pattern(path), s) <==>
            s == path || (path + "/" <= s && NewlineFree(s[|path| + 1..]))
  {
    if MatchString(Pattern(path), s) {
      PatternMatchesOnly(path, s);
    }
    if s == path || (path + "/" <= s && NewlineFree(s[|path| + 1..])) {
      PatternMatchesAll(path, s);
    }
  }

  lemma PatternMatchesOnly(path: string, s: string)
    requires MatchString(Pattern(path), s)
    ensures s == path || (path + "/" <= s && NewlineFree(s[|path| + 1..]))
  {
    var body := Literals(path, TAIL);
    var i, j :| 0 <= i <= j <= |s| && Matches(Pattern(path), s, i, j);
    var k := ConcatSplit(TextStart, body, s, i, j);
    LiteralsMatch(path, TAIL, s, 0, j);
    TailMatches(s, |path|, j);
    assert s == s[0..|path|] + s[|path|..];
  }

  lemma PatternMatchesAll(path: string, s: string)
    requires s == path || (path + "/" <= s && NewlineFree(s[|path| + 1..]))
    ensures MatchString(Pattern(path), s)
  {
    var n := |path|;
    if s == path {
      assert StandsAt(path, s, 0);
    } else {
      assert StandsAt(path, s, 0);
      forall k | n < k < |s| ensures s[k] != '\n' {
        assert s[k] == s[n + 1..][k - n - 1];
      }
    }
    TailMatches(s, n, |s|);
    LiteralsMatch(path, TAIL, s, 0, |s|);
    ConcatJoin(TextStart, Literals(path, TAIL), s, 0, 0, |s|);
  }
}
