/** The cookie-compliance analyzer: `Set-Cookie` parsing, the banner keyword scan and
    the GDPR / CCPA thresholds on the compliance score. */
module CookieCompliance {
  import opened Wrappers
  import opened Strings

  datatype CookieType = Necessary | Preference | Statistics | Marketing | Unclassified
  datatype Severity = High | Medium | Low

  datatype Cookie = Cookie(name: string, domain: string, purpose: string, kind: CookieType, duration: string,
                           isCompliant: bool)
  datatype CookieIssue = CookieIssue(severity: Severity, description: string, recommendation: string)
  datatype CookieReport = CookieReport(cookies: seq<Cookie>, hasCookieBanner: bool, hasConsentManagement: bool,
                                       issues: seq<CookieIssue>, gdprCompliant: bool, ccpaCompliant: bool)
  datatype CookieResult = CookieResult(score: int, report: CookieReport)

  /** The per-cookie helpers the parser calls (`classifyCookiePurpose`,
      `determineCookieType`, `calculateDuration`), supplied by the caller. */
  datatype Classifier = Classifier(purpose: (string, Option<string>) -> string, kind: string -> CookieType,
                                   duration: seq<string> -> string)

  /** The fetched page: the text of every element, the `set-cookie` header lines, and
      what the consent-management, issue and score helpers return for it. */
  datatype CookiePage = CookiePage(elementTexts: seq<string>, setCookie: Option<seq<string>>,
                                   hasConsentManagement: bool, issues: seq<CookieIssue>, score: int)

  const COOKIE_KEYWORDS := ["cookie", "cookies", "gdpr", "ccpa", "consent"]

  /** `detectCookieBanner`: some element's lower-cased text holds a keyword. */
  predicate DetectCookieBanner(elementTexts: seq<string>) {
    exists i :: 0 <= i < |elementTexts| && ContainsAny(ToLower(elementTexts[i]), COOKIE_KEYWORDS)
  }

  /** An occurrence of a longer pattern is one of its prefix. */
  lemma ContainsPrefix(s: string, p: string, q: string)
    requires Contains(s, p + q)
    ensures Contains(s, p)
  {
    var k := ContainsWitness(s, p + q);
    assert s[k..k + |p|] == (p + q)[..|p|] == p;
    ContainsAt(s, p, k);
  }

  /** The keyword `cookies` adds nothing: every text it matches, `cookie` matches. */
  lemma PluralKeywordIsRedundant(elementTexts: seq<string>)
    ensures DetectCookieBanner(elementTexts) <==>
              exists i :: 0 <= i < |elementTexts| && ContainsAny(ToLower(elementTexts[i]), ["cookie", "gdpr", "ccpa", "consent"])
  {
    var short := ["cookie", "gdpr", "ccpa", "consent"];
    if DetectCookieBanner(elementTexts) {
      var i :| 0 <= i < |elementTexts| && ContainsAny(ToLower(elementTexts[i]), COOKIE_KEYWORDS);
      var t := ToLower(elementTexts[i]);
      var k :| 0 <= k < |COOKIE_KEYWORDS| && Contains(t, COOKIE_KEYWORDS[k]);
      if k == 1 {
        assert COOKIE_KEYWORDS[1] == "cookie" + "s";
        ContainsPrefix(t, "cookie", "s");
        assert Contains(t, short[0]);
      } else {
        assert COOKIE_KEYWORDS[k] == short[if k == 0 then 0 else k - 1];
      }
    }
    if exists i :: 0 <= i < |elementTexts| && ContainsAny(ToLower(elementTexts[i]), short) {
      var i :| 0 <= i < |elementTexts| && ContainsAny(ToLower(elementTexts[i]), short);
      var k :| 0 <= k < |short| && Contains(ToLower(elementTexts[i]), short[k]);
      assert short[k] == COOKIE_KEYWORDS[if k == 0 then 0 else k + 1];
    }
  }

  /** `parts.find(p => p.includes('Domain='))`. */
  function FindDomainPart(parts: seq<string>): (r: Option<nat>)
    ensures r.Some? ==> r.value < |parts| && Contains(parts[r.value], "Domain=") &&
                        forall j :: 0 <= j < r.value ==> !Contains(parts[j], "Domain=")
    ensures r.None? ==> forall j :: 0 <= j < |parts| ==> !Contains(parts[j], "Domain=")
    decreases |parts|
  {
    if |parts| == 0 then None
    else if Contains(parts[0], "Domain=") then Some(0)
    else match FindDomainPart(parts[1..])
      case None => None
      case Some(j) => Some(j + 1)
  }

  /** `?.split('=')[1] || ''`. */
  function DomainOf(parts: seq<string>): string {
    match FindDomainPart(parts)
    case None => ""
    case Some(j) =>
      var pieces := Split(parts[j], '=');
      if |pieces| > 1 then pieces[1] else ""
  }

  /** `header.split(';')` then `nameValue.split('=')`. */
  function ParseCookie(header: string, cls: Classifier): (c: Cookie)
    ensures c.isCompliant
  {
    var segments := Split(header, ';');
    var nameValue := Split(segments[0], '=');
    var name := Trim(nameValue[0]);
    var value := if |nameValue| > 1 then Some(nameValue[1]) else None;
    Cookie(name, DomainOf(segments[1..]), cls.purpose(name, value), cls.kind(name), cls.duration(segments[1..]), true)
  }

  /** `parseCookies`: one cookie per header line, in order. */
  function ParseCookies(headers: seq<string>, cls: Classifier): (r: seq<Cookie>)
    ensures |r| == |headers|
    ensures forall i :: 0 <= i < |headers| ==> r[i] == ParseCookie(headers[i], cls) && r[i].isCompliant
  {
    seq(|headers|, i requires 0 <= i < |headers| => ParseCookie(headers[i], cls))
  }

  /** The first piece `split` yields is the text before the first separator. */
  lemma SplitHead(s: string, c: char)
    ensures var h := Split(s, c)[0];
            StartsWith(s, h) && c !in h && (|h| < |s| ==> s[|h|] == c)
  {
  }

  /** The head of a `split` on `c` of the head of a `split` on `d` holds neither
      separator, and is followed by one of them unless it is the whole text. */
  lemma HeadOfHead(s: string, d: char, c: char)
    ensures var raw := Split(Split(s, d)[0], c)[0];
            |raw| <= |s| && raw == s[..|raw|] && d !in raw && c !in raw &&
            (|raw| < |s| ==> s[|raw|] == d || s[|raw|] == c)
  {
    var segment := Split(s, d)[0];
    SplitHead(s, d);
    var raw := Split(segment, c)[0];
    SplitHead(segment, c);
    assert segment[..|raw|] == raw;
    assert s[..|segment|][..|raw|] == s[..|raw|];
    if |raw| < |segment| {
      assert s[|raw|] == segment[|raw|];
    }
  }

  /** A cookie's name is the trimmed text before the header's first `;` or `=`. */
  lemma NameIsBeforeFirstSeparator(header: string, cls: Classifier)
    ensures exists n :: 0 <= n <= |header| && ParseCookie(header, cls).name == Trim(header[..n]) &&
              (forall i :: 0 <= i < n ==> header[i] != ';' && header[i] != '=') &&
              (n < |header| ==> header[n] == ';' || header[n] == '=')
  {
    HeadOfHead(header, ';', '=');
    var raw := Split(Split(header, ';')[0], '=')[0];
    var n := |raw|;
    assert ParseCookie(header, cls).name == Trim(header[..n]);
    assert forall i :: 0 <= i < n ==> header[i] != ';' && header[i] != '=' by {
      forall i | 0 <= i < n
        ensures header[i] != ';' && header[i] != '='
      {
        assert header[i] == raw[i];
      }
    }
  }

  /** An attribute holding `Domain=` splits into at least two pieces, the second
      being the text after its first `=` up to the next. */
  lemma DomainPartPieces(p: string)
    requires Contains(p, "Domain=")
    ensures IndexOf(p, '=').Some?
    ensures |Split(p, '=')| > 1 && Split(p, '=')[1] == Split(p[IndexOf(p, '=').value + 1..], '=')[0]
  {
    HasEquals(p);
    SplitAtFirst(p, '=');
  }

  /** Text holding `Domain=` holds an `=`. */
  lemma HasEquals(p: string)
    requires Contains(p, "Domain=")
    ensures IndexOf(p, '=').Some?
  {
    var k := ContainsWitness(p, "Domain=");
    assert p[k..k + 7][6] == '=';
    assert p[k + 6] == '=';
  }

  /** Splitting at a present separator: the text before it, then the pieces of the rest. */
  lemma SplitAtFirst(s: string, c: char)
    requires IndexOf(s, c).Some?
    ensures Split(s, c) == [s[..IndexOf(s, c).value]] + Split(s[IndexOf(s, c).value + 1..], c)
  {
  }

  /** The domain is the text between the first and the second `=` of the first
      attribute holding `Domain=`, and empty when no attribute does. */
  lemma DomainIsBetweenEquals(parts: seq<string>)
    ensures FindDomainPart(parts).None? ==> DomainOf(parts) == ""
    ensures FindDomainPart(parts).Some? ==>
              var p := parts[FindDomainPart(parts).value];
              IndexOf(p, '=').Some? && DomainOf(parts) == Split(p[IndexOf(p, '=').value + 1..], '=')[0]
  {
    if FindDomainPart(parts).Some? {
      DomainPartPieces(parts[FindDomainPart(parts).value]);
    }
  }

  /** `gdprCompliant: score >= 80`. */
  predicate GdprCompliant(score: int) {
    score >= 80
  }

  /** `ccpaCompliant: score >= 75`. */
  predicate CcpaCompliant(score: int) {
    score >= 75
  }

  /** The GDPR bar is the stricter one. */
  lemma GdprImpliesCcpa(score: int)
    ensures GdprCompliant(score) ==> CcpaCompliant(score)
    ensures 75 <= score < 80 <==> CcpaCompliant(score) && !GdprCompliant(score)
  {
  }

  /** The set-cookie lines `parseCookies` maps over: `headers['set-cookie'] || []`. */
  function SetCookieLines(page: CookiePage): seq<string> {
    if page.setCookie.Some? then page.setCookie.value else []
  }

  /** What calling a helper the module never declares throws. */
  function NotDefined(name: string): Thrown {
    ErrorThrown(name + " is not defined")
  }

  /** `analyzeCookieCompliance(url)` as written: `parseCookies` calls
      `classifyCookiePurpose` for its first line, and with no line the next step calls
      `detectConsentManagement`; neither is declared in the module, so every fetched
      page rejects with the first missing name, and a failed fetch is rethrown. */
  function AnalyzeCookieCompliance(page: Result<CookiePage>): (r: Result<CookieResult>)
    ensures r.Err?
    ensures page.Err? ==> r == Err(page.error)
    ensures page.Ok? && |SetCookieLines(page.value)| > 0 ==> r == Err(NotDefined("classifyCookiePurpose"))
    ensures page.Ok? && SetCookieLines(page.value) == [] ==> r == Err(NotDefined("detectConsentManagement"))
  {
    match page
    case Err(e) => Err(e)
    case Ok(p) =>
      if |SetCookieLines(p)| > 0 then Err(NotDefined("classifyCookiePurpose"))
      else Err(NotDefined("detectConsentManagement"))
  }

  /** `analyzeCookieCompliance(url)` with the missing helpers supplied: the per-cookie
      ones as `cls`, and the consent detection, issues and score as page facts. A failed
      fetch is rethrown. */
  function AnalyzeCookieComplianceCorrected(page: Result<CookiePage>, cls: Classifier): (r: Result<CookieResult>)
    ensures page.Err? ==> r == Err(page.error)
    ensures page.Ok? ==> r.Ok? && r.value.score == page.value.score
    ensures page.Ok? ==>
              var rep := r.value.report;
              rep.hasCookieBanner == DetectCookieBanner(page.value.elementTexts) &&
              rep.cookies == ParseCookies(SetCookieLines(page.value), cls) &&
              (rep.gdprCompliant <==> page.value.score >= 80) && (rep.ccpaCompliant <==> page.value.score >= 75) &&
              (rep.gdprCompliant ==> rep.ccpaCompliant)
  {
    match page
    case Err(e) => Err(e)
    case Ok(p) =>
      var cookies := ParseCookies(SetCookieLines(p), cls);
      Ok(CookieResult(p.score, CookieReport(cookies, DetectCookieBanner(p.elementTexts), p.hasConsentManagement,
                                            p.issues, GdprCompliant(p.score), CcpaCompliant(p.score))))
  }

  /** On every fetched page the written analyzer rejects where the corrected one
      reports, whatever the missing helpers would answer. */
  lemma AsWrittenNeverReports(p: CookiePage, cls: Classifier)
    ensures AnalyzeCookieCompliance(Ok(p)).Err?
    ensures AnalyzeCookieComplianceCorrected(Ok(p), cls).Ok?
    ensures AnalyzeCookieComplianceCorrected(Ok(p), cls).value.report.cookies == ParseCookies(SetCookieLines(p), cls)
  {
  }
}
