/** The text of the published patterns and its parse. The fragment covers everything
    "^" + QuoteMeta(path) + "(/.*)?$" can produce: literals, escaped literals, '.', '^', '$', groups, and
    one '*' or '?' after an atom. */
module PatternSyntax {
  import opened Prelude
  import opened PathRegex

  // ---- the text ------------------------------------------------------------------------------

  predicate IsMeta(c: char) {
    c in "\\.+*?()|[]{}^$"
  }

  /** regexp.QuoteMeta */
  function QuoteMeta(s: string): string {
    if s == "" then ""
    else if IsMeta(s[0]) then "\\" + [s[0]] + QuoteMeta(s[1..])
    else [s[0]] + QuoteMeta(s[1..])
  }

  const TAIL_TEXT := "(/.*)?$"

  function PatternText(path: string): string {
    "^" + QuoteMeta(path) + TAIL_TEXT
  }

  // ---- the parser ----------------------------------------------------------------------------

  /** What a backslash makes a literal: ASCII that is neither letter nor digit. */
  predicate Punctuation(c: char) {
    c < '\U{80}' && !('0' <= c <= '9') && !('A' <= c <= 'Z') && !('a' <= c <= 'z')
  }

  /** One atom and the text after it; None for syntax outside the fragment. */
  function ParseAtom(t: string): (r: Option<(Regex, string)>)
    requires t != ""
    ensures r.Some? ==> |r.value.1| < |t|
    decreases |t|, 0
  {
    if t[0] == '^' then Some((TextStart, t[1..]))
    else if t[0] == '$' then Some((TextEnd, t[1..]))
    else if t[0] == '.' then Some((AnyChar, t[1..]))
    else if t[0] == '\\' then
      if |t| >= 2 && Punctuation(t[1]) then Some((Lit(t[1]), t[2..])) else None
    else if t[0] == '(' then
      var inner := ParseItems(t[1..]);
      if inner.Some? && inner.value.1 != "" && inner.value.1[0] == ')'
      then Some((inner.value.0, inner.value.1[1..])) else None
    else if t[0] in {'*', '+', '?', '|', '[', '{', ')'} then None
    else Some((Lit(t[0]), t[1..]))
  }

  function ParsePostfix(re: Regex, t: string): (r: (Regex, string))
    ensures |r.1| <= |t|
  {
    if t != "" && t[0] == '*' then (Star(re), t[1..])
    else if t != "" && t[0] == '?' then (Optional(re), t[1..])
    else (re, t)
  }

  /** Items up to the end of the text or a closing parenthesis. */
  function ParseItems(t: string): (r: Option<(Regex, string)>)
    ensures r.Some? ==> |r.value.1| <= |t|
    decreases |t|, 1
  {
    if t == "" || t[0] == ')' then Some((Empty, t))
    else
      match ParseAtom(t)
      case None => None
      case Some((atom, afterAtom)) =>
        var (item, afterItem) := ParsePostfix(atom, afterAtom);
        match ParseItems(afterItem)
        case None => None
        case Some((rest, end)) => Some((Concat(item, rest), end))
  }

  function Compile(t: string): Option<Regex> {
    var r := ParseItems(t);
    if r.Some? && r.value.1 == "" then Some(r.value.0) else None
  }

  // ---- what the published text parses to -------------------------------------------------------

  lemma TailParses()
    ensures ParseItems(TAIL_TEXT) == Some((TAIL, ""))
  {
    assert TAIL_TEXT[1..] == "/.*)?$";
    assert "/.*)?$"[1..] == ".*)?$";
    assert ".*)?$"[1..] == "*)?$";
    assert "*)?$"[1..] == ")?$";
    assert ")?$"[1..] == "?$";
    assert "?$"[1..] == "$";
    assert "$"[1..] == "";
    assert ParseItems(")?$") == Some((Empty, ")?$"));
    assert ParseAtom(".*)?$") == Some((AnyChar, "*)?$"));
    assert ParseItems(".*)?$") == Some((Concat(Star(AnyChar), Empty), ")?$"));
    assert ParseItems("/.*)?$") == Some((TAIL_GROUP, ")?$"));
    assert ParseAtom(TAIL_TEXT) == Some((TAIL_GROUP, "?$"));
    assert ParseItems("") == Some((Empty, ""));
    assert ParseItems("$") == Some((Concat(TextEnd, Empty), ""));
  }

  predicate NoPostfix(t: string) {
    t == "" || (t[0] != '*' && t[0] != '?')
  }

  lemma QuoteNoPostfix(path: string, rest: string)
    requires NoPostfix(rest)
    ensures NoPostfix(QuoteMeta(path) + rest)
  {
  }

  /** One quoted character is read as that character. */
  lemma QuotedCharParses(c: char, later: string)
    ensures ParseAtom(QuoteMeta([c]) + later) == Some((Lit(c), later))
    ensures QuoteMeta([c]) + later != "" && (QuoteMeta([c]) + later)[0] != ')'
  {
    var t := QuoteMeta([c]) + later;
    assert [c][1..] == "" && QuoteMeta([c][1..]) == "";
    if IsMeta(c) {
      assert QuoteMeta([c]) == "\\" + [c] + "";
      assert t == "\\" + [c] + later;
      assert t[2..] == later;
    } else {
      assert QuoteMeta([c]) == [c] + "";
      assert t == [c] + later;
      assert t[1..] == later;
    }
  }

  lemma QuoteMetaStep(path: string)
    requires path != ""
    ensures QuoteMeta(path) == QuoteMeta([path[0]]) + QuoteMeta(path[1..])
  {
    QuoteOne(path[0]);
  }

  lemma QuoteOne(c: char)
    ensures QuoteMeta([c]) == if IsMeta(c) then "\\" + [c] else [c]
  {
    assert [c][1..] == "" && QuoteMeta([c][1..]) == "";
    assert [c] + "" == [c] && "\\" + [c] + "" == "\\" + [c];
  }

  /** An atom without a postfix operator, in front of text that parses. */
  lemma ItemParses(t: string, atom: Regex, later: string, re: Regex)
    requires t != "" && t[0] != ')' && ParseAtom(t) == Some((atom, later))
    requires NoPostfix(later) && ParseItems(later) == Some((re, ""))
    ensures ParseItems(t) == Some((Concat(atom, re), ""))
  {
  }

  /** Quoted text stands for its own characters, whatever they are. */
  lemma {:induction false} QuoteParses(path: string, rest: string, tail: Regex)
    requires NoPostfix(rest) && ParseItems(rest) == Some((tail, ""))
    ensures ParseItems(QuoteMeta(path) + rest) == Some((Literals(path, tail), ""))
  {
    if path == "" {
      assert QuoteMeta(path) + rest == rest;
    } else {
      var later := QuoteMeta(path[1..]) + rest;
      QuoteParses(path[1..], rest, tail);
      QuoteNoPostfix(path[1..], rest);
      QuotedCharParses(path[0], later);
      QuoteSplit(path, rest);
      ItemParses(QuoteMeta(path) + rest, Lit(path[0]), later, Literals(path[1..], tail));
    }
  }

  lemma QuoteSplit(path: string, rest: string)
    requires path != ""
    ensures QuoteMeta(path) + rest == QuoteMeta([path[0]]) + (QuoteMeta(path[1..]) + rest)
  {
    QuoteMetaStep(path);
    TextGroups(QuoteMeta([path[0]]), QuoteMeta(path[1..]), rest);
  }

  lemma TextGroups(a: string, b: string, c: string)
    ensures a + b + c == a + (b + c)
  {
  }

  lemma CaretParses(body: string)
    ensures "^" + body != "" && ("^" + body)[0] == '^' && ParseAtom("^" + body) == Some((TextStart, body))
  {
    assert ("^" + body)[1..] == body;
  }

  /** Raw regular-expression syntax in a path never reaches the matcher as syntax. */
  lemma PatternCompiles(path: string)
    ensures Compile(PatternText(path)) == Some(Pattern(path))
  {
    TailParses();
    Anchored(path, TAIL_TEXT, TAIL);
  }

  lemma Anchored(path: string, rest: string, tail: Regex)
    requires NoPostfix(rest) && ParseItems(rest) == Some((tail, ""))
    ensures ParseItems("^" + QuoteMeta(path) + rest) == Some((Concat(TextStart, Literals(path, tail)), ""))
  {
    var body := QuoteMeta(path) + rest;
    QuoteParses(path, rest, tail);
    QuoteNoPostfix(path, rest);
    CaretParses(body);
    TextGroups("^", QuoteMeta(path), rest);
    ItemParses("^" + body, TextStart, body, Literals(path, tail));
  }
}
