/** The security-header analyzer: a loop over the configured headers that awards
    points and fills a per-header report, then the HTTPS check and the cap at 100. */
module Security {
  import opened Wrappers
  import opened Strings

  datatype Status = Good | Warning | Bad

  datatype HeaderConfig = HeaderConfig(name: string, required: bool, recommendation: string)

  /** `SECURITY_HEADERS`, in declaration order (the order `Object.entries` yields). */
  const SECURITY_HEADERS: seq<HeaderConfig> := [
    HeaderConfig("Strict-Transport-Security", true, "max-age=31536000; includeSubDomains"),
    HeaderConfig("Content-Security-Policy", true, "default-src 'self'"),
    HeaderConfig("X-Frame-Options", true, "DENY"),
    HeaderConfig("X-Content-Type-Options", true, "nosniff"),
    HeaderConfig("Referrer-Policy", true, "strict-origin-when-cross-origin"),
    HeaderConfig("Permissions-Policy", false, "geolocation=(), microphone=()")
  ]

  datatype HeaderReport = HeaderReport(present: bool, value: Option<string>, status: Status, message: string)
  datatype SslReport = SslReport(valid: bool, status: Status, message: string)
  datatype SecurityResult = SecurityResult(score: int, headers: map<string, HeaderReport>, ssl: SslReport,
                                           vulnerabilities: seq<string>)

  /** Response headers, keyed by lower-cased name as the HTTP client delivers them. */
  type Headers = map<string, string>

  function HeaderValue(headers: Headers, name: string): (v: Option<string>)
    ensures v.Some? <==> ToLower(name) in headers
    ensures v.Some? ==> v.value == headers[ToLower(name)]
  {
    if ToLower(name) in headers then Some(headers[ToLower(name)]) else None
  }

  /** Header names are matched without regard to ASCII case: two spellings of a name
      find the same value. */
  lemma HeaderLookupIgnoresCase(headers: Headers, name: string, other: string)
    requires |name| == |other|
    requires forall i :: 0 <= i < |name| ==> LowerChar(name[i]) == LowerChar(other[i])
    ensures HeaderValue(headers, name) == HeaderValue(headers, other)
  {
    assert ToLower(name) == ToLower(other);
  }

  /** `!!headerValue`: present and non-empty. */
  predicate Present(headers: Headers, name: string) {
    Truthy(HeaderValue(headers, name))
  }

  function ReportFor(cfg: HeaderConfig, headers: Headers): (r: HeaderReport)
    ensures r.present == Present(headers, cfg.name) && r.value == HeaderValue(headers, cfg.name)
    ensures r.status == Good <==> r.present
    ensures r.status == Bad <==> !r.present && cfg.required
    ensures r.status == Warning <==> !r.present && !cfg.required
  {
    var present := Present(headers, cfg.name);
    if present then HeaderReport(true, HeaderValue(headers, cfg.name), Good, "Header is properly configured")
    else if cfg.required then
      HeaderReport(false, HeaderValue(headers, cfg.name), Bad, "Missing required security header: " + cfg.name)
    else
      HeaderReport(false, HeaderValue(headers, cfg.name), Warning, "Recommended security header not found: " + cfg.name)
  }

  /** 20 for a present required header, 10 for a present optional one. */
  function Points(cfg: HeaderConfig, headers: Headers): (p: nat)
    ensures p == 0 <==> !Present(headers, cfg.name)
    ensures p <= 20
    ensures Present(headers, cfg.name) ==> p == (if cfg.required then 20 else 10)
  {
    if Present(headers, cfg.name) then (if cfg.required then 20 else 10) else 0
  }

  /** Points of the headers in `cfgs`. */
  function HeadersScore(cfgs: seq<HeaderConfig>, headers: Headers): nat
    decreases |cfgs|
  {
    if |cfgs| == 0 then 0 else HeadersScore(cfgs[..|cfgs| - 1], headers) + Points(cfgs[|cfgs| - 1], headers)
  }

  /** The `headerResults` dictionary after visiting `cfgs`. */
  function HeaderReports(cfgs: seq<HeaderConfig>, headers: Headers): map<string, HeaderReport>
    decreases |cfgs|
  {
    if |cfgs| == 0 then map[]
    else HeaderReports(cfgs[..|cfgs| - 1], headers)[cfgs[|cfgs| - 1].name := ReportFor(cfgs[|cfgs| - 1], headers)]
  }

  function Ssl(url: string): (r: SslReport)
    ensures r.valid <==> StartsWith(url, "https")
    ensures r.status == (if r.valid then Good else Bad)
  {
    if StartsWith(url, "https") then SslReport(true, Good, "SSL is properly configured")
    else SslReport(false, Bad, "Site is not using HTTPS")
  }

  function Min(a: int, b: int): int {
    if a < b then a else b
  }

  function ErrorReports(cfgs: seq<HeaderConfig>): map<string, HeaderReport>
    decreases |cfgs|
  {
    if |cfgs| == 0 then map[]
    else ErrorReports(cfgs[..|cfgs| - 1])[cfgs[|cfgs| - 1].name := HeaderReport(false, None, Bad, "Error analyzing security headers")]
  }

  const ERROR_RESULT := SecurityResult(0, ErrorReports(SECURITY_HEADERS),
                                       SslReport(false, Bad, "Error analyzing SSL configuration"), [])

  /** Visiting one more header adds its points and its report. */
  lemma HeadersStep(cfgs: seq<HeaderConfig>, i: nat, headers: Headers)
    requires i < |cfgs|
    ensures HeadersScore(cfgs[..i + 1], headers) == HeadersScore(cfgs[..i], headers) + Points(cfgs[i], headers)
    ensures HeaderReports(cfgs[..i + 1], headers) == HeaderReports(cfgs[..i], headers)[cfgs[i].name := ReportFor(cfgs[i], headers)]
  {
    assert cfgs[..i + 1][..i] == cfgs[..i];
  }

  /** `analyzeSecurityHeaders(url)`; `response` is the response headers, or `None`
      when the request fails. */
  method AnalyzeSecurityHeaders(url: string, response: Option<Headers>) returns (r: SecurityResult)
    ensures response.None? ==> r == ERROR_RESULT
    ensures response.Some? ==>
              r.headers == HeaderReports(SECURITY_HEADERS, response.value) &&
              r.score == Min(100, HeadersScore(SECURITY_HEADERS, response.value) + (if Ssl(url).valid then 20 else 0)) &&
              r.ssl == Ssl(url) && r.vulnerabilities == []
  {
    if response.None? { return ERROR_RESULT; }
    var headers := response.value;
    var totalScore := 0;
    var headerResults: map<string, HeaderReport> := map[];
    var i := 0;
    while i < |SECURITY_HEADERS|
      invariant 0 <= i <= |SECURITY_HEADERS|
      invariant totalScore == HeadersScore(SECURITY_HEADERS[..i], headers)
      invariant headerResults == HeaderReports(SECURITY_HEADERS[..i], headers)
    {
      var cfg := SECURITY_HEADERS[i];
      var headerValue := HeaderValue(headers, cfg.name);
      var present := Truthy(headerValue);
      var status := Bad;
      var message := "";
      if present {
        status := Good;
        message := "Header is properly configured";
        totalScore := totalScore + (if cfg.required then 20 else 10);
      } else {
        status := if cfg.required then Bad else Warning;
        message := if cfg.required then "Missing required security header: " + cfg.name
                   else "Recommended security header not found: " + cfg.name;
      }
      assert HeaderReport(present, headerValue, status, message) == ReportFor(cfg, headers);
      headerResults := headerResults[cfg.name := HeaderReport(present, headerValue, status, message)];
      HeadersStep(SECURITY_HEADERS, i, headers);
      i := i + 1;
    }
    assert SECURITY_HEADERS[..i] == SECURITY_HEADERS;
    var ssl := Ssl(url);
    if ssl.valid {
      totalScore := totalScore + 20;
    }
    r := SecurityResult(Min(100, totalScore), headerResults, ssl, []);
  }

  /** The points every header of `cfgs` would earn if present. */
  function MaxScore(cfgs: seq<HeaderConfig>): nat
    decreases |cfgs|
  {
    if |cfgs| == 0 then 0
    else MaxScore(cfgs[..|cfgs| - 1]) + (if cfgs[|cfgs| - 1].required then 20 else 10)
  }

  /** The headers earn at most their maximum, and exactly it when all are present. */
  lemma {:induction false} ScoreAtMostMax(cfgs: seq<HeaderConfig>, headers: Headers)
    ensures HeadersScore(cfgs, headers) <= MaxScore(cfgs)
    ensures (forall i :: 0 <= i < |cfgs| ==> Present(headers, cfgs[i].name)) ==>
              HeadersScore(cfgs, headers) == MaxScore(cfgs)
    decreases |cfgs|
  {
    if |cfgs| > 0 {
      var init := cfgs[..|cfgs| - 1];
      ScoreAtMostMax(init, headers);
      if forall i :: 0 <= i < |cfgs| ==> Present(headers, cfgs[i].name) {
        assert forall i :: 0 <= i < |init| ==> init[i] == cfgs[i];
      }
    }
  }

  /** Five required headers and one optional one: at most 110 points. */
  lemma MaxIs110()
    ensures MaxScore(SECURITY_HEADERS) == 110
  {
    var h := SECURITY_HEADERS;
    assert h[..5][..4] == h[..4] && h[..4][..3] == h[..3] && h[..3][..2] == h[..2];
    assert h[..2][..1] == h[..1] && h[..1][..0] == [];
    assert MaxScore(h[..1]) == 20;
    assert MaxScore(h[..3]) == 60;
    assert MaxScore(h[..5]) == 100;
  }

  /** The final score lies in [0, 100]. */
  lemma ScoreInRange(url: string, headers: Headers)
    ensures 0 <= Min(100, HeadersScore(SECURITY_HEADERS, headers) + (if Ssl(url).valid then 20 else 0)) <= 100
  {
  }

  /** With every header present over HTTPS the raw total is 130, so the cap binds. */
  lemma CapBinds(url: string, headers: Headers)
    requires StartsWith(url, "https")
    requires forall i :: 0 <= i < |SECURITY_HEADERS| ==> Present(headers, SECURITY_HEADERS[i].name)
    ensures HeadersScore(SECURITY_HEADERS, headers) + (if Ssl(url).valid then 20 else 0) == 130
  {
    ScoreAtMostMax(SECURITY_HEADERS, headers);
    MaxIs110();
  }

  /** The report holds exactly one entry per configured header. */
  lemma {:induction false} ReportsCoverEveryHeader(cfgs: seq<HeaderConfig>, headers: Headers)
    ensures forall n :: n in HeaderReports(cfgs, headers) <==> exists i :: 0 <= i < |cfgs| && cfgs[i].name == n
    decreases |cfgs|
  {
    if |cfgs| > 0 {
      var init := cfgs[..|cfgs| - 1];
      ReportsCoverEveryHeader(init, headers);
      forall n ensures n in HeaderReports(cfgs, headers) <==> exists i :: 0 <= i < |cfgs| && cfgs[i].name == n {
        if n in HeaderReports(init, headers) {
          var i :| 0 <= i < |init| && init[i].name == n;
          assert cfgs[i].name == n;
        }
        if exists i :: 0 <= i < |cfgs| && cfgs[i].name == n {
          var i :| 0 <= i < |cfgs| && cfgs[i].name == n;
          if i < |init| { assert init[i].name == n; }
        }
      }
    }
  }

  /** With distinct names, each header's entry is its own report. */
  lemma {:induction false} ReportsAreByHeader(cfgs: seq<HeaderConfig>, headers: Headers, j: nat)
    requires forall a, b :: 0 <= a < b < |cfgs| ==> cfgs[a].name != cfgs[b].name
    requires j < |cfgs|
    ensures cfgs[j].name in HeaderReports(cfgs, headers)
    ensures HeaderReports(cfgs, headers)[cfgs[j].name] == ReportFor(cfgs[j], headers)
    decreases |cfgs|
  {
    if j < |cfgs| - 1 {
      ReportsAreByHeader(cfgs[..|cfgs| - 1], headers, j);
    }
  }

  /** The fallback: score 0, no header present, every header bad, no valid SSL. */
  lemma {:induction false} ErrorReportsAreBad(cfgs: seq<HeaderConfig>, n: string)
    requires n in ErrorReports(cfgs)
    ensures !ErrorReports(cfgs)[n].present && ErrorReports(cfgs)[n].status == Bad
    decreases |cfgs|
  {
    if |cfgs| > 0 && n != cfgs[|cfgs| - 1].name {
      ErrorReportsAreBad(cfgs[..|cfgs| - 1], n);
    }
  }
}
