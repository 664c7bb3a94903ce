/** Which inputs the service takes, in the words of its path and origin contracts rather than the
    normaliser's. */
module InputRules {
  import opened Prelude
  import opened PathOrder
  import opened RoutePath
  import opened Routes
  import opened RouteLaws

  // ---- paths -----------------------------------------------------------------------------------

  predicate Blank(s: string) { forall c :: c in s ==> IsSpace(c) }

  function Slashes(n: nat): string { seq(n, i => '/') }

  /** Nothing the path contract forbids. */
  predicate Clean(s: string) { forall c :: c in s ==> c != '?' && c != '#' && !IsControl(c) }

  /** A path with a first slash and no last one. */
  predicate Specific(p: string) { |p| >= 2 && p[0] == '/' && p[|p| - 1] != '/' && Clean(p) }

  lemma {:induction false} TrimLeftBlank(pre: string, s: string)
    requires Blank(pre) && s != "" && !IsSpace(s[0])
    ensures TrimLeftSpace(pre + s) == s
  {
    if pre == "" {
      assert pre + s == s;
    } else {
      assert pre[0] in pre && forall c :: c in pre[1..] ==> c in pre;
      assert (pre + s)[1..] == pre[1..] + s;
      TrimLeftBlank(pre[1..], s);
    }
  }

  lemma {:induction false} TrimRightBlank(s: string, post: string)
    requires Blank(post) && s != "" && !IsSpace(s[|s| - 1])
    ensures TrimRightSpace(s + post) == s
  {
    if post == "" {
      assert s + post == s;
    } else {
      var init := post[..|post| - 1];
      assert post[|post| - 1] in post && forall c :: c in init ==> c in post;
      assert (s + post)[..|s + post| - 1] == s + init;
      TrimRightBlank(s, init);
    }
  }

  /** Surrounding white space is ignored. */
  lemma TrimBlanks(pre: string, s: string, post: string)
    requires Blank(pre) && Blank(post) && s != "" && !IsSpace(s[0]) && !IsSpace(s[|s| - 1])
    ensures TrimSpace(pre + s + post) == s
  {
    assert pre + s + post == pre + (s + post);
    TrimLeftBlank(pre, s + post);
    TrimRightBlank(s, post);
  }

  lemma {:induction false} CutSlashes(p: string, n: nat)
    requires p == "" || p[|p| - 1] != '/'
    ensures TrimRightSlashes(p + Slashes(n)) == p
  {
    if n == 0 {
      assert p + Slashes(0) == p;
    } else {
      assert (p + Slashes(n))[..|p| + n - 1] == p + Slashes(n - 1);
      CutSlashes(p, n - 1);
    }
  }

  lemma {:induction false} SlashBytes(n: nat)
    ensures ByteLen(Slashes(n)) == n
  {
    if n > 0 {
      assert Slashes(n)[1..] == Slashes(n - 1);
      SlashBytes(n - 1);
    }
  }

  lemma PlainCharacters()
    ensures forall c :: ' ' < c <= '~' ==> !IsSpace(c) && !IsControl(c)
    ensures forall c :: IsSpace(c) && c < '\U{80}' ==> c in {' ', '\t', '\n', '\r', '\U{b}', '\U{c}'}
    ensures IsSpace(' ') && IsSpace('\t') && IsSpace('\n') && IsSpace('\r') && IsSpace('\U{A0}') && IsSpace('\U{3000}')
    ensures forall c :: c < ' ' || '\U{7F}' <= c < '\U{A0}' ==> IsControl(c)
    ensures forall c :: '\U{A0}' <= c ==> !IsControl(c)
  {
  }

  /** A clean path of at most 256 bytes is taken, with blanks around it and slashes behind it, and is
      stored without them. */
  lemma SpecificPathIsTaken(pre: string, p: string, n: nat, post: string)
    requires Blank(pre) && Blank(post) && Specific(p) && ByteLen(p) + n <= 256
    requires n > 0 || !IsSpace(p[|p| - 1])
    ensures NormalizePath(Utf8(pre + (p + Slashes(n)) + post)) == Ok(p)
  {
    var path := p + Slashes(n);
    PlainCharacters();
    TrimBlanks(pre, path, post);
    CutSlashes(p, n);
    SlashBytes(n);
    ByteLenConcat(p, Slashes(n));
    SlashesAreClean(n);
    assert Clean(path);
  }

  lemma SlashesAreClean(n: nat)
    ensures Clean(Slashes(n))
  {
  }

  /** A lone slash is the root; more of them are the empty path. */
  lemma SlashPathIsTaken(pre: string, n: nat, post: string)
    requires Blank(pre) && Blank(post) && 1 <= n <= 256
    ensures NormalizePath(Utf8(pre + Slashes(n) + post)) == Ok(if n == 1 then "/" else "")
  {
    var path := Slashes(n);
    PlainCharacters();
    TrimBlanks(pre, path, post);
    CutSlashes("", n);
    assert "" + Slashes(n) == Slashes(n);
    SlashBytes(n);
    SlashesAreClean(n);
    assert n == 1 ==> path == "/";
  }

  /** And nothing else is taken: whatever is, reads as blanks, a clean path or the empty one, slashes and
      blanks. */
  lemma TakenPathReads(raw: RawText) returns (pre: string, p: string, n: nat, post: string)
    requires NormalizePath(raw).Ok?
    ensures raw.Utf8? && raw.text == pre + (p + Slashes(n)) + post
    ensures Blank(pre) && Blank(post) && ByteLen(p) + n <= 256
    ensures (p == "" && n >= 1) || (Specific(p) && (n > 0 || !IsSpace(p[|p| - 1])))
    ensures NormalizePath(raw) == Ok(if p == "" && n == 1 then "/" else p)
  {
    var path := TrimSpace(raw.text);
    pre, post := TrimmedBlanks(raw.text);
    TrimSpaceShape(raw.text);
    p, n := CutPath(path);
    assert p == "" && n == 1 ==> path == "/";
    if path == "/" { OnlyASlash(p, n); }
  }

  lemma OnlyASlash(p: string, n: nat)
    requires p + Slashes(n) == "/" && (p == "" || p[|p| - 1] != '/')
    ensures p == "" && n == 1
  {
    assert p + Slashes(0) == p;
  }

  /** A clean path is what is left of it without its last slashes, and those. */
  lemma CutPath(path: string) returns (p: string, n: nat)
    requires path != "" && path[0] == '/' && !IsSpace(path[|path| - 1]) && Clean(path) && ByteLen(path) <= 256
    ensures p == TrimRightSlashes(path) && path == p + Slashes(n) && ByteLen(p) + n <= 256
    ensures (p == "" && n >= 1) || (Specific(p) && (n > 0 || !IsSpace(p[|p| - 1])))
  {
    TrimRightSlashesShape(path);
    p := TrimRightSlashes(path);
    n := |path| - |p|;
    assert path == p + path[|p|..] && path[|p|..] == Slashes(n);
    SlashBytes(n);
    ByteLenConcat(p, Slashes(n));
    assert forall c :: c in p ==> c in path;
  }

  lemma TrimmedBlanks(s: string) returns (pre: string, post: string)
    ensures s == pre + TrimSpace(s) + post && Blank(pre) && Blank(post)
  {
    pre := LeftBlank(s);
    post := RightBlank(TrimLeftSpace(s));
    assert s == pre + (TrimSpace(s) + post);
  }

  lemma {:induction false} LeftBlank(s: string) returns (pre: string)
    ensures s == pre + TrimLeftSpace(s) && Blank(pre)
  {
    if s != "" && IsSpace(s[0]) {
      pre := LeftBlank(s[1..]);
      pre := [s[0]] + pre;
    } else {
      pre := "";
    }
  }

  lemma {:induction false} RightBlank(s: string) returns (post: string)
    ensures s == TrimRightSpace(s) + post && Blank(post)
  {
    if s != "" && IsSpace(s[|s| - 1]) {
      post := RightBlank(s[..|s| - 1]);
      post := post + [s[|s| - 1]];
    } else {
      post := "";
    }
  }

  // ---- origins -----------------------------------------------------------------------------------

  /** An absolute HTTP or HTTPS URL without credentials, query or fragment. */
  predicate WebUrl(u: Url) {
    && (u.scheme == "http" || u.scheme == "https") && u.host != NoHost
    && !u.hasUser && u.query == "" && u.fragment == ""
  }

  /** What the origin contract takes: no path but a slash; a stored direct route may keep a legacy one. */
  predicate GoodOrigin(origin: Option<Url>, strip: bool, allowPath: bool) {
    && origin.Some? && WebUrl(origin.value)
    && (origin.value.path == "" || origin.value.path == "/" || (!strip && allowPath))
  }

  /** The stored origin is the given one up to a lone slash. */
  predicate SameOrigin(u: Url, stored: Url) {
    stored == u || (u.path == "/" && stored == u.(path := ""))
  }

  /** Every origin of an accepted set is a web URL, without a path or, under the lax rule on a direct route,
      with one; and it is the one that was sent, up to a lone slash. */
  lemma AcceptedOrigins(domainId: string, inputs: seq<RouteInput>, now: int, allowPath: bool, ids: nat -> string,
                        r: Route)
    returns (input: RouteInput)
    requires Accepted(inputs, allowPath) && r in NormalRoutes(domainId, inputs, now, allowPath, ids)
    ensures WebUrl(r.origin) && r.origin.path != "/" && (r.origin.path != "" ==> allowPath && !r.strip)
    ensures input in inputs && input.strip == r.strip && NormalizePath(input.path) == Ok(r.path)
    ensures input.origin.Some? && SameOrigin(input.origin.value, r.origin)
  {
    var draft := Draft(domainId, InputCores(inputs, allowPath), now, ids);
    SortMultiset(PathOf, draft);
    assert r in multiset(NormalRoutes(domainId, inputs, now, allowPath, ids));
    var i :| 0 <= i < |draft| && draft[i] == r;
    input := inputs[i];
    assert InputCores(inputs, allowPath)[i] == CoreOr(input, allowPath);
    OneOrigin(input, allowPath);
  }

  lemma OneOrigin(input: RouteInput, allowPath: bool)
    requires NormalizeOne(input, allowPath).Ok?
    ensures var c := CoreOr(input, allowPath);
            && WebUrl(c.origin) && c.origin.path != "/" && (c.origin.path != "" ==> allowPath && !c.strip)
            && input.strip == c.strip && NormalizePath(input.path) == Ok(c.path)
            && input.origin.Some? && SameOrigin(input.origin.value, c.origin)
  {
  }

  // ---- sets ----------------------------------------------------------------------------------------

  /** One input that breaks no rule on its own. */
  predicate GoodInput(input: RouteInput, allowPath: bool) {
    && NormalizePath(input.path).Ok?
    && (NormalizePath(input.path).value == "/" ==> !input.strip)
    && GoodOrigin(input.origin, input.strip, allowPath)
  }

  function NameOf(input: RouteInput): string {
    if NormalizePath(input.path).Ok? then NormalizePath(input.path).value else ""
  }

  lemma GoodInputIsOk(input: RouteInput, allowPath: bool)
    ensures NormalizeOne(input, allowPath).Ok? <==> GoodInput(input, allowPath)
    ensures NormalizeOne(input, allowPath).Ok? ==> CoreOr(input, allowPath).path == NameOf(input)
  {
  }

  lemma GoodNames(inputs: seq<RouteInput>, allowPath: bool)
    requires AllOk(inputs, allowPath)
    ensures CorePaths(InputCores(inputs, allowPath)) == MapSeq(NameOf, inputs)
  {
    forall i | 0 <= i < |inputs| ensures CorePaths(InputCores(inputs, allowPath))[i] == NameOf(inputs[i]) {
      assert inputs[i] in inputs;
      GoodInputIsOk(inputs[i], allowPath);
    }
  }

  /** The service takes exactly the sets of 1 to 50 good inputs on distinct paths with a root. */
  lemma AcceptedIffGood(inputs: seq<RouteInput>, allowPath: bool)
    ensures Accepted(inputs, allowPath) <==>
            && 1 <= |inputs| <= 50
            && (forall input :: input in inputs ==> GoodInput(input, allowPath))
            && Distinct(MapSeq(NameOf, inputs)) && "/" in MapSeq(NameOf, inputs)
  {
    forall input | input in inputs ensures NormalizeOne(input, allowPath).Ok? <==> GoodInput(input, allowPath) {
      GoodInputIsOk(input, allowPath);
    }
    if AllOk(inputs, allowPath) { GoodNames(inputs, allowPath); }
  }

  /** Good inputs keep path, flag and origin: each one is stored. */
  lemma GoodInputIsStored(domainId: string, inputs: seq<RouteInput>, now: int, allowPath: bool, ids: nat -> string,
                          input: RouteInput)
    returns (r: Route)
    requires Accepted(inputs, allowPath) && input in inputs
    ensures r in NormalRoutes(domainId, inputs, now, allowPath, ids) && r.domainId == domainId
    ensures NormalizePath(input.path) == Ok(r.path) && r.strip == input.strip
    ensures input.origin.Some? && SameOrigin(input.origin.value, r.origin)
    ensures r.created == now && r.updated == now
  {
    var i :| 0 <= i < |inputs| && inputs[i] == input;
    var draft := Draft(domainId, InputCores(inputs, allowPath), now, ids);
    assert InputCores(inputs, allowPath)[i] == CoreOr(input, allowPath);
    r := draft[i];
    SortMultiset(PathOf, draft);
    assert r in multiset(NormalRoutes(domainId, inputs, now, allowPath, ids));
  }

  /** Names drawn for distinct positions are distinct, and so are the routes'. */
  lemma RouteIdsAreDistinct(domainId: string, inputs: seq<RouteInput>, now: int, allowPath: bool, ids: nat -> string)
    requires forall i, j :: 0 <= i < j < |inputs| ==> ids(i) != ids(j)
    ensures KeysDistinct(IdOf, NormalRoutes(domainId, inputs, now, allowPath, ids))
  {
    var draft := Draft(domainId, InputCores(inputs, allowPath), now, ids);
    SortMultiset(PathOf, draft);
    KeysDistinctPermuted(IdOf, draft, NormalRoutes(domainId, inputs, now, allowPath, ids));
  }

  function IdOf(r: Route): string { r.id }
}
