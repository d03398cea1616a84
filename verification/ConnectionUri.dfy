/**
 Connection URIs and the form they are compared in (`parse_connection_uri`,
 `normalize_connection_uri`).

 The shell's own parser and renderer, and Python's strip and lower, are functions of a UriShell;
 RoundTrips is what is used of them. The scheme test is section 3.1 of RFC 3986.
 */
module ConnectionUri {
  import opened Wrappers

  const DEFAULT_CONNECTION_SCHEME := "mariadb"
  const PROTOCOL_SCHEMES := {"mariadb", "mariadb+ssh", "mysql", "mysql+ssh"}
  const DEFAULT_PORT := 3306

  /** A URI taken apart; everything no rule here looks at is in rest. */
  datatype Data = Data(scheme: Option<string>, host: Option<string>, port: Option<nat>, socket: Option<string>,
                       password: Option<string>, rest: string)

  datatype UriShell = UriShell(parse: string -> Option<Data>, unparse: Data -> Option<string>,
                               strip: string -> string, lower: string -> string)

  // --- The scheme -----------------------------------------------------------------------------------

  predicate IsAlpha(c: char) {
    'a' <= c <= 'z' || 'A' <= c <= 'Z'
  }

  predicate IsSchemeChar(c: char) {
    IsAlpha(c) || '0' <= c <= '9' || c == '+' || c == '.' || c == '-'
  }

  function SchemeSpan(s: string): (n: nat)
    ensures n <= |s| && forall i :: 0 <= i < n ==> IsSchemeChar(s[i])
    ensures n < |s| ==> !IsSchemeChar(s[n])
  {
    if s != [] && IsSchemeChar(s[0]) then 1 + SchemeSpan(s[1..]) else 0
  }

  /** How long the leading scheme:// is, 0 where there is none. */
  function SchemePrefix(s: string): (n: nat)
    ensures n <= |s|
  {
    var n := SchemeSpan(s);
    if s != [] && IsAlpha(s[0]) && n + 3 <= |s| && s[n..n + 3] == "://" then n + 3 else 0
  }

  function LowerChar(c: char): char {
    if 'A' <= c <= 'Z' then (c as nat + 32) as char else c
  }

  function LowerAscii(s: string): (t: string)
    ensures |t| == |s| && forall i :: 0 <= i < |s| ==> t[i] == LowerChar(s[i])
  {
    seq(|s|, i requires 0 <= i < |s| => LowerChar(s[i]))
  }

  function LowerScheme(s: string): string {
    LowerAscii(s[..SchemePrefix(s)]) + s[SchemePrefix(s)..]
  }

  lemma {:induction false} SpanOfSame(s: string, t: string)
    requires |s| == |t| && forall i :: 0 <= i < |s| ==> IsSchemeChar(s[i]) == IsSchemeChar(t[i])
    ensures SchemeSpan(s) == SchemeSpan(t)
  {
    if s != [] { SpanOfSame(s[1..], t[1..]); }
  }

  predicate Alike(c: char, d: char) {
    IsSchemeChar(c) == IsSchemeChar(d) && IsAlpha(c) == IsAlpha(d) && (c == ':') == (d == ':')
        && (c == '/') == (d == '/')
  }

  lemma LoweredIsAlike(s: string)
    ensures |LowerScheme(s)| == |s| && forall i :: 0 <= i < |s| ==> Alike(s[i], LowerScheme(s)[i])
  {
    hide SchemePrefix;
    var n := SchemePrefix(s);
    forall i | 0 <= i < |s| ensures Alike(s[i], LowerScheme(s)[i]) {
      assert LowerScheme(s)[i] == if i < n then LowerChar(s[i]) else s[i];
    }
  }

  lemma MarkAt(s: string, k: nat)
    requires k + 3 <= |s|
    ensures s[k..k + 3] == "://" <==> s[k] == ':' && s[k + 1] == '/' && s[k + 2] == '/'
  {
    assert s[k..k + 3] == [s[k], s[k + 1], s[k + 2]];
  }

  lemma AlikePrefix(s: string, t: string)
    requires |s| == |t| && forall i :: 0 <= i < |s| ==> Alike(s[i], t[i])
    ensures SchemePrefix(s) == SchemePrefix(t)
  {
    hide IsSchemeChar, IsAlpha;
    SpanOfSame(s, t);
    var k := SchemeSpan(s);
    if k + 3 <= |s| {
      MarkAt(s, k);
      MarkAt(t, k);
    }
  }

  /** What RFC 3986 lets a scheme hold: a letter, and then letters, digits, plus signs, points and dashes. */
  ghost predicate IsScheme(scheme: string) {
    && scheme != [] && ('a' <= scheme[0] <= 'z' || 'A' <= scheme[0] <= 'Z')
    && forall c :: c in scheme ==>
         'a' <= c <= 'z' || 'A' <= c <= 'Z' || '0' <= c <= '9' || c == '+' || c == '.' || c == '-'
  }

  lemma {:induction false} SpanOfScheme(scheme: string, rest: string)
    requires forall c :: c in scheme ==> IsSchemeChar(c)
    requires rest != [] ==> !IsSchemeChar(rest[0])
    ensures SchemeSpan(scheme + rest) == |scheme|
  {
    if scheme == [] {
      assert scheme + rest == rest;
    } else {
      assert (scheme + rest)[1..] == scheme[1..] + rest;
      assert forall c :: c in scheme[1..] ==> c in scheme;
      SpanOfScheme(scheme[1..], rest);
    }
  }

  /** A scheme before :// is written in small letters, and nothing else of the text is changed. */
  lemma SchemeIsLowered(scheme: string, rest: string)
    requires IsScheme(scheme)
    ensures var text := LowerScheme(scheme + "://" + rest);
            && |text| == |scheme| + 3 + |rest| && text[|scheme|..] == "://" + rest
            && forall i :: 0 <= i < |scheme| ==>
                 text[i] == if 'A' <= scheme[i] <= 'Z' then scheme[i] + 32 as char else scheme[i]
  {
    var s, n := scheme + "://" + rest, |scheme|;
    assert s == scheme + ("://" + rest);
    SpanOfScheme(scheme, "://" + rest);
    assert s[0] == scheme[0] && s[n..n + 3] == "://" && SchemePrefix(s) == n + 3;
    assert s[..n + 3] == scheme + "://" && s[n + 3..] == rest;
    assert LowerAscii(scheme + "://")[n..] == "://";
  }

  /** The text begins with a scheme of n characters and ://. */
  ghost predicate BeginsWithScheme(s: string, n: nat) {
    n + 3 <= |s| && s[n..n + 3] == "://" && IsScheme(s[..n])
  }

  lemma SchemeBefore(s: string)
    requires SchemePrefix(s) != 0
    ensures SchemePrefix(s) > 3 && BeginsWithScheme(s, SchemePrefix(s) - 3)
  {
    var scheme := s[..SchemePrefix(s) - 3];
    forall c | c in scheme ensures IsSchemeChar(c) {
    }
  }

  /** A text that does not begin with one is left as it is. */
  lemma OtherTextStays(s: string)
    requires forall n: nat :: !BeginsWithScheme(s, n)
    ensures LowerScheme(s) == s
  {
    hide SchemePrefix, BeginsWithScheme;
    if SchemePrefix(s) != 0 { SchemeBefore(s); }
  }

  /** Lowering keeps the scheme where it is, and once is enough. */
  lemma LowerSchemeOnce(s: string)
    ensures LowerScheme(LowerScheme(s)) == LowerScheme(s)
  {
    hide SchemePrefix;
    LoweredIsAlike(s);
    AlikePrefix(s, LowerScheme(s));
    var n := SchemePrefix(s);
    assert LowerScheme(s)[..n] == LowerAscii(s[..n]);
    assert LowerAscii(LowerAscii(s[..n])) == LowerAscii(s[..n]);
  }

  // --- Normalizing --------------------------------------------------------------------------------

  function ParseConnectionUri(u: UriShell, uri: string): Option<Data> {
    var s := u.strip(uri);
    if s == "" then None
    else
      match u.parse(LowerScheme(s))
      case None => None
      case Some(d) => Some(if d.scheme.None? then d.(scheme := Some(DEFAULT_CONNECTION_SCHEME)) else d)
  }

  /** The parts that do not tell connections apart, in one form. */
  function Tidied(u: UriShell, d: Data): Data {
    var host := d.host;
    var d := d.(password := None, host := if host.Some? then Some(u.lower(host.value)) else None);
    if host.Some? && host.value != "" && d.port.None? && d.socket.None?
       && '/' !in host.value && '\\' !in host.value
       && d.scheme.Some? && d.scheme.value in PROTOCOL_SCHEMES
    then d.(port := Some(DEFAULT_PORT)) else d
  }

  function Normalize(u: UriShell, uri: string): Option<string> {
    match ParseConnectionUri(u, uri)
    case None => None
    case Some(d) => u.unparse(Tidied(u, d))
  }

  /** What is used of Python's lower. */
  ghost predicate Lowers(u: UriShell) {
    forall s :: var t := u.lower(s);
      u.lower(t) == t && (t == "" <==> s == "") && ('/' in t <==> '/' in s) && ('\\' in t <==> '\\' in s)
  }

  /** Lowering twice is lowering once; and what the shell renders of a URI it parsed, tidied, is text
      it parses back to the same, with the scheme it was given. */
  ghost predicate RoundTrips(u: UriShell) {
    && Lowers(u)
    && (forall uri :: ParseConnectionUri(u, uri).Some? && Normalize(u, uri).Some? ==>
          var t := Normalize(u, uri).value;
          t != "" && u.strip(t) == t && LowerScheme(t) == t
          && u.parse(t) == Some(Tidied(u, ParseConnectionUri(u, uri).value)))
  }

  lemma TidiedOnce(u: UriShell, d: Data)
    requires Lowers(u)
    ensures Tidied(u, Tidied(u, d)) == Tidied(u, d)
  {
  }

  lemma NormalParses(u: UriShell, uri: string)
    requires RoundTrips(u) && Normalize(u, uri).Some?
    ensures ParseConnectionUri(u, Normalize(u, uri).value) == Some(Tidied(u, ParseConnectionUri(u, uri).value))
  {
    hide LowerScheme;
  }

  /** A normalized URI is its own normal form. */
  lemma NormalizeIsIdempotent(u: UriShell, uri: string)
    requires RoundTrips(u) && Normalize(u, uri).Some?
    ensures Normalize(u, Normalize(u, uri).value) == Normalize(u, uri)
  {
    hide LowerScheme, Tidied, Lowers;
    NormalParses(u, uri);
    TidiedOnce(u, ParseConnectionUri(u, uri).value);
  }

  /** What a URI says, as the shell takes it apart. */
  function Said(u: UriShell, uri: string): Option<Data> {
    if u.strip(uri) == "" then None else u.parse(LowerScheme(u.strip(uri)))
  }

  /** The port a connection is opened on: the one given, or that of the protocols that have one, where
      a host is named and no socket. A path for a host is a socket too. */
  ghost function PortOf(d: Data): Option<nat> {
    if d.port.Some? then d.port
    else if d.host.Some? && d.host.value != "" && '/' !in d.host.value && '\\' !in d.host.value && d.socket.None?
            && d.scheme in {None, Some("mariadb"), Some("mariadb+ssh"), Some("mysql"), Some("mysql+ssh")}
    then Some(3306)
    else None
  }

  ghost predicate SameHost(u: UriShell, a: Data, b: Data) {
    if a.host.Some? then b.host.Some? && u.lower(a.host.value) == u.lower(b.host.value) else b.host.None?
  }

  ghost function SchemeOf(d: Data): string {
    if d.scheme.Some? then d.scheme.value else "mariadb"
  }

  lemma SaidIsParsed(u: UriShell, uri: string)
    ensures ParseConnectionUri(u, uri).Some? <==> Said(u, uri).Some?
    ensures Said(u, uri).Some? ==>
              ParseConnectionUri(u, uri).value
              == Said(u, uri).value.(scheme := Some(SchemeOf(Said(u, uri).value)))
  {
  }

  lemma TidiedFields(u: UriShell, a: Data, b: Data, c: Data, d: Data)
    requires Lowers(u)
    requires c == a.(scheme := Some(SchemeOf(a)))
    requires d == b.(scheme := Some(SchemeOf(b)))
    ensures Tidied(u, c) == Tidied(u, d)
            <==> SchemeOf(a) == SchemeOf(b) && SameHost(u, a, b) && PortOf(a) == PortOf(b) && a.socket == b.socket
                 && a.rest == b.rest
  {
    hide Lowers;
    TidiedPort(u, a, c);
    TidiedPort(u, b, d);
    hide Tidied, PortOf;
  }

  lemma TidiedPort(u: UriShell, d: Data, full: Data)
    requires full == d.(scheme := Some(SchemeOf(d)))
    ensures Tidied(u, full)
            == Data(full.scheme, if d.host.Some? then Some(u.lower(d.host.value)) else None, PortOf(d), d.socket, None,
                    d.rest)
  {
  }

  /** Two spellings are folded together exactly when they name the same scheme, host and port, each with
      what stands for one left out, and agree in the socket and all the rest. Passwords do not matter. */
  lemma FoldedExactlyWhenTheSame(u: UriShell, a: string, b: string)
    requires RoundTrips(u) && Normalize(u, a).Some? && Normalize(u, b).Some?
    ensures Said(u, a).Some? && Said(u, b).Some?
    ensures var x, y := Said(u, a).value, Said(u, b).value;
            Normalize(u, a) == Normalize(u, b)
            <==> SchemeOf(x) == SchemeOf(y) && SameHost(u, x, y) && PortOf(x) == PortOf(y) && x.socket == y.socket
                 && x.rest == y.rest
  {
    hide LowerScheme, Tidied, SchemeOf, SameHost, PortOf, Lowers;
    NormalParses(u, a);
    NormalParses(u, b);
    SaidIsParsed(u, a);
    SaidIsParsed(u, b);
    TidiedFields(u, Said(u, a).value, Said(u, b).value, ParseConnectionUri(u, a).value, ParseConnectionUri(u, b).value);
  }

  /** Two URIs that each give a port, and not the same. */
  ghost predicate OtherPort(u: UriShell, a: string, b: string) {
    && Said(u, a).Some? && Said(u, b).Some?
    && Said(u, a).value.port.Some? && Said(u, b).value.port.Some?
    && Said(u, a).value.port != Said(u, b).value.port
  }

  /** They are never folded together. */
  lemma OtherPortsNeverFold(u: UriShell, a: string, b: string)
    requires RoundTrips(u) && OtherPort(u, a, b)
    ensures Normalize(u, a).None? || Normalize(u, a) != Normalize(u, b)
  {
    hide Normalize, Said, SchemeOf, SameHost, RoundTrips;
    if Normalize(u, a).Some? && Normalize(u, b).Some? { FoldedExactlyWhenTheSame(u, a, b); }
  }

  /** The case of the scheme does not matter. */
  lemma SchemeCaseIsFolded(u: UriShell, a: string, b: string)
    requires u.strip(a) == a && u.strip(b) == b && |a| == |b| && SchemePrefix(a) == SchemePrefix(b)
    requires LowerAscii(a[..SchemePrefix(a)]) == LowerAscii(b[..SchemePrefix(a)])
    requires a[SchemePrefix(a)..] == b[SchemePrefix(a)..]
    ensures Normalize(u, a) == Normalize(u, b)
  {
    assert LowerScheme(a) == LowerScheme(b);
  }
}
