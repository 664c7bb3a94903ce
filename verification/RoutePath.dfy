/** Normalisation of one raw path and one raw origin URL. */
module RoutePath {
  import opened Prelude
  import opened PathOrder

  const MAX_DOMAIN_ROUTES := 50
  const MAX_ROUTE_PATH_LEN := 256

  /** Why a route set is refused. The source wraps every one of these in ErrInvalidRoutes. */
  datatype RouteError =
    | BadCount
    | BadPath
    | ControlCharacter
    | NotUtf8OrTooLong
    | DuplicatePath
    | RootStrips
    | BadOrigin
    | OriginHasPath
    | NoRoot

  /** Text as it arrives: a Go string may hold bytes that are not UTF-8. */
  datatype RawText = Utf8(text: string) | Malformed

  /** unicode.IsSpace */
  predicate IsSpace(c: char) {
    var u := c as int;
    || 0x09 <= u <= 0x0D || u == 0x20 || u == 0x85 || u == 0xA0
    || u == 0x1680 || 0x2000 <= u <= 0x200A || u == 0x2028 || u == 0x2029
    || u == 0x202F || u == 0x205F || u == 0x3000
  }

  /** unicode.IsControl */
  predicate IsControl(c: char) {
    var u := c as int;
    u < 0x20 || 0x7F <= u < 0xA0
  }

  function TrimLeftSpace(s: string): string {
    if s != "" && IsSpace(s[0]) then TrimLeftSpace(s[1..]) else s
  }

  function TrimRightSpace(s: string): string {
    if s != "" && IsSpace(s[|s| - 1]) then TrimRightSpace(s[..|s| - 1]) else s
  }

  function TrimSpace(s: string): string { TrimRightSpace(TrimLeftSpace(s)) }

  function TrimRightSlashes(s: string): string {
    if s != "" && s[|s| - 1] == '/' then TrimRightSlashes(s[..|s| - 1]) else s
  }

  function NormalizePath(raw: RawText): Result<string, RouteError> {
    if raw.Malformed? then Err(NotUtf8OrTooLong)
    else
      var path := TrimSpace(raw.text);
      if path == "" || path[0] != '/' || '?' in path || '#' in path then Err(BadPath)
      else if exists c :: c in path && IsControl(c) then Err(ControlCharacter)
      else if ByteLen(path) > MAX_ROUTE_PATH_LEN then Err(NotUtf8OrTooLong)
      else if path != "/" then Ok(TrimRightSlashes(path))
      else Ok(path)
  }

  lemma {:induction false} TrimRightSlashesShape(s: string)
    ensures TrimRightSlashes(s) <= s
    ensures TrimRightSlashes(s) != "" ==> TrimRightSlashes(s)[|TrimRightSlashes(s)| - 1] != '/'
    ensures forall i :: |TrimRightSlashes(s)| <= i < |s| ==> s[i] == '/'
  {
    if s != "" && s[|s| - 1] == '/' { TrimRightSlashesShape(s[..|s| - 1]); }
  }

  lemma {:induction false} TrimSpaceShape(s: string)
    ensures TrimSpace(s) != "" ==> !IsSpace(TrimSpace(s)[0]) && !IsSpace(TrimSpace(s)[|TrimSpace(s)| - 1])
    ensures forall c :: c in TrimSpace(s) ==> c in s
  {
    TrimLeftShape(s);
    TrimRightShape(TrimLeftSpace(s));
  }

  lemma {:induction false} TrimLeftShape(s: string)
    ensures TrimLeftSpace(s) != "" ==> !IsSpace(TrimLeftSpace(s)[0])
    ensures forall c :: c in TrimLeftSpace(s) ==> c in s
  {
    if s != "" && IsSpace(s[0]) { TrimLeftShape(s[1..]); }
  }

  lemma {:induction false} TrimRightShape(s: string)
    ensures TrimRightSpace(s) <= s
    ensures TrimRightSpace(s) != "" ==> !IsSpace(TrimRightSpace(s)[|TrimRightSpace(s)| - 1])
  {
    if s != "" && IsSpace(s[|s| - 1]) { TrimRightShape(s[..|s| - 1]); }
  }

  /** What every accepted path looks like. */
  ghost predicate WellShaped(p: string) {
    && (p != "" ==> p[0] == '/')
    && (p != "" && p != "/" ==> p[|p| - 1] != '/')
    && (forall c :: c in p ==> c != '?' && c != '#' && !IsControl(c))
    && ByteLen(p) <= MAX_ROUTE_PATH_LEN
  }

  lemma NormalizedIsWellShaped(raw: RawText)
    requires NormalizePath(raw).Ok?
    ensures WellShaped(NormalizePath(raw).value)
  {
    var path := TrimSpace(raw.text);
    var p := NormalizePath(raw).value;
    if path != "/" {
      TrimRightSlashesShape(path);
      assert path == p + path[|p|..];
      ByteLenConcat(p, path[|p|..]);
      assert forall c :: c in p ==> c in path;
    }
  }

  /** A path that a second normalisation accepts and leaves alone. */
  ghost predicate Canonical(p: string) {
    NormalizePath(Utf8(p)) == Ok(p)
  }

  lemma TrimSpaceFixed(s: string)
    requires s != "" && !IsSpace(s[0]) && !IsSpace(s[|s| - 1])
    ensures TrimSpace(s) == s
  {
  }

  /** The documented contract reads as if the stored form were a fixed point. It is one exactly
      when the trimmed path neither was nothing but slashes nor ended in a space once its slashes
      were cut. */
  lemma NormalizedIsCanonicalIff(raw: RawText)
    requires NormalizePath(raw).Ok?
    ensures var p := NormalizePath(raw).value;
            Canonical(p) <==> p != "" && !IsSpace(p[|p| - 1])
  {
    var p := NormalizePath(raw).value;
    NormalizedIsWellShaped(raw);
    if p != "" {
      TrimSpaceShape(p);
      if !IsSpace(p[|p| - 1]) {
        TrimSpaceFixed(p);
        if p != "/" { assert TrimRightSlashes(p) == p; }
      } else {
        TrimRightSlashesShape(TrimSpace(p));
        TrimRightShape(p[..|p| - 1]);
        assert TrimLeftSpace(p) == p;
        assert |TrimSpace(p)| < |p|;
      }
    }
  }

  /** "//" is accepted as the empty path, which no later normalisation accepts. */
  lemma DoubleSlashIsNotCanonical()
    ensures NormalizePath(Utf8("//")) == Ok("")
    ensures NormalizePath(Utf8("")) == Err(BadPath)
  {
    assert TrimSpace("//") == "//";
    assert "//"[..1] == "/" && "/"[..0] == "";
    assert TrimRightSlashes("/") == "";
    assert TrimRightSlashes("//") == "";
    assert ByteLen("/") == 1;
    assert "//"[1..] == "/";
    assert ByteLen("//") == 2;
  }

  /** "/api /" is accepted as "/api ", which is read back as "/api". */
  lemma InnerSpaceIsNotCanonical()
    ensures NormalizePath(Utf8("/a /")) == Ok("/a ")
    ensures NormalizePath(Utf8("/a ")) == Ok("/a")
  {
    var s, t := "/a /", "/a ";
    assert s[..3] == t && t[..2] == "/a";
    assert TrimSpace(s) == s;
    assert TrimRightSlashes(s) == TrimRightSlashes(t) == t;
    assert TrimLeftSpace(t) == t;
    assert TrimRightSpace("/a") == "/a";
    assert TrimRightSpace(t) == TrimRightSpace(t[..2]) == "/a";
    assert TrimRightSlashes("/a") == "/a";
    assert ByteLen(s[3..]) == 1;
    assert ByteLen(s[2..]) == 2 by { assert s[2..][1..] == s[3..]; }
    assert ByteLen(s[1..]) == 3 by { assert s[1..][1..] == s[2..]; }
    assert ByteLen(s) == 4;
    assert ByteLen("/a"[1..]) == 1;
    assert ByteLen("/a") == 2;
  }

  // ---- origins -------------------------------------------------------------------------------

  /** A host name as net.ParseIP and the comparison with "localhost" see it. */
  datatype HostName = Localhost | Ip(bytes: seq<int>) | Name(text: string)

  /** url.URL.Host: absent, without a port (net.SplitHostPort fails), or with one. */
  datatype Host = NoHost | Bare(name: HostName) | WithPort(name: HostName, port: string)

  /** A parsed URL. String and Parse are inverse on these records. */
  datatype Url = Url(scheme: string, hasUser: bool, host: Host, path: string, query: string, fragment: string)

  /** None stands for text that url.Parse refuses. */
  function NormalizeOrigin(raw: Option<Url>, strip: bool, allowPath: bool): Result<Url, RouteError> {
    if raw.None? || raw.value.host.NoHost? || raw.value.scheme !in {"http", "https"} then Err(BadOrigin)
    else
      var u := raw.value;
      if u.hasUser || u.query != "" || u.fragment != "" then Err(BadOrigin)
      else if u.path != "" && u.path != "/" && (strip || !allowPath) then Err(OriginHasPath)
      else Ok(if u.path == "/" then u.(path := "") else u)
  }

  lemma NormalizedOriginIsFixed(raw: Option<Url>, strip: bool, allowPath: bool)
    requires NormalizeOrigin(raw, strip, allowPath).Ok?
    ensures var u := NormalizeOrigin(raw, strip, allowPath).value;
            NormalizeOrigin(Some(u), strip, allowPath) == Ok(u) && NormalizeOrigin(Some(u), strip, true) == Ok(u)
  {
  }
}
