/** A simplified model of the platform's `new URL(...)` (WHATWG URL parsing), which
    the source calls but does not define: a scheme, then `//`, then an authority
    whose host part is non-empty and free of forbidden code points. */
module Url {
  import opened Wrappers
  import opened Strings

  datatype Url = Url(scheme: string, hostname: string, port: string, tail: string)

  predicate IsAsciiLetter(c: char) {
    ('a' <= c <= 'z') || ('A' <= c <= 'Z')
  }

  predicate IsAsciiDigit(c: char) {
    '0' <= c <= '9'
  }

  /** A scheme: a letter followed by letters, digits, `+`, `-` or `.`. */
  predicate ValidScheme(s: string) {
    |s| > 0 && IsAsciiLetter(s[0]) &&
    forall i :: 1 <= i < |s| ==> IsAsciiLetter(s[i]) || IsAsciiDigit(s[i]) || s[i] in "+-."
  }

  /** The host code points the URL standard forbids. */
  predicate ForbiddenHostChar(c: char) {
    c in " #/:<>?@[\\]^|" || (c as int) < 0x20 || c as int == 0x7F
  }

  /** Index of the first character of `s` that is in `stops`, or `|s|`. */
  function FirstOf(s: string, stops: string): (r: nat)
    ensures r <= |s|
    ensures forall i :: 0 <= i < r ==> s[i] !in stops
    ensures r < |s| ==> s[r] in stops
    decreases |s|
  {
    if |s| == 0 then 0 else if s[0] in stops then 0 else 1 + FirstOf(s[1..], stops)
  }

  /** The part of `s` after its last `c`, or all of `s`. */
  function AfterLast(s: string, c: char): (r: string)
    ensures c !in r
    ensures |r| <= |s|
    decreases |s|
  {
    match IndexOf(s, c)
    case None => s
    case Some(i) => AfterLast(s[i + 1..], c)
  }

  function ParseAuthority(scheme: string, rest: string): (r: Option<Url>)
    ensures r.Some? ==> |r.value.hostname| > 0
  {
    var end := FirstOf(rest, "/?#");
    var hostPort := AfterLast(rest[..end], '@');
    var colon := FirstOf(hostPort, ":");
    var host := hostPort[..colon];
    var port := if colon < |hostPort| then hostPort[colon + 1..] else "";
    if |host| > 0 && (forall i :: 0 <= i < |host| ==> !ForbiddenHostChar(host[i]))
       && (forall i :: 0 <= i < |port| ==> IsAsciiDigit(port[i]))
    then Some(Url(ToLower(scheme), ToLower(host), port, rest[end..]))
    else None
  }

  /** `new URL(s)`: `None` where the constructor throws. */
  function ParseUrl(s: string): (r: Option<Url>)
    ensures r.Some? ==> |r.value.hostname| > 0
  {
    match IndexOf(s, ':')
    case None => None
    case Some(i) =>
      if ValidScheme(s[..i]) && StartsWith(s[i + 1..], "//")
      then ParseAuthority(s[..i], s[i + 3..])
      else None
  }

  predicate PlainHost(host: string) {
    |host| > 0 && forall i :: 0 <= i < |host| ==> !ForbiddenHostChar(host[i])
  }

  /** A plain host is the whole authority: no credentials, no port, no path. */
  lemma PlainHostAuthority(scheme: string, host: string)
    requires PlainHost(host)
    ensures ParseAuthority(scheme, host) == Some(Url(ToLower(scheme), ToLower(host), "", ""))
  {
    assert FirstOf(host, "/?#") == |host|;
    assert IndexOf(host, '@').None?;
    assert FirstOf(host, ":") == |host|;
    assert host[..|host|] == host;
    assert AfterLast(host, '@') == host;
    assert host[..FirstOf(host, "/?#")] == host;
    assert AfterLast(host[..FirstOf(host, "/?#")], '@') == host;
    assert host[|host|..] == "";
  }

  /** `scheme://host`, with no port, path or credentials, parses to that host. */
  lemma PlainHostParses(scheme: string, host: string)
    requires ValidScheme(scheme) && PlainHost(host)
    ensures ParseUrl(scheme + "://" + host) == Some(Url(ToLower(scheme), ToLower(host), "", ""))
  {
    var s := scheme + "://" + host;
    var n := |scheme|;
    assert s[n] == ':';
    assert forall j :: 0 <= j < n ==> s[j] == scheme[j] && s[j] != ':';
    var k := IndexOf(s, ':');
    assert k.Some?;
    assert k.value == n;
    assert s[..n] == scheme;
    assert s[n + 1..][..2] == "//";
    assert s[n + 3..] == host;
    PlainHostAuthority(scheme, host);
    assert ParseUrl(s) == ParseAuthority(s[..n], s[n + 3..]);
  }
}
