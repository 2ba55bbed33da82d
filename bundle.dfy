/** The bundle analyzer: the fetched script and stylesheet bundles, one issue and one
    recommendation per size or coverage problem, and a deduction-based score. */
module BundleAnalysis {
  import opened Wrappers
  import opened Strings
  import opened Url
  import opened Rounding

  datatype Kind = Js | Css
  datatype Severity = High | Medium | Low

  /** A bundle; `coverage` is `None` for the `NaN` a stylesheet without rules gets. */
  datatype Bundle = Bundle(name: string, size: nat, kind: Kind, gzipSize: nat, treeshakeable: bool,
                           coverage: Option<int>)
  datatype Issue = Issue(severity: Severity, description: string, suggestion: string)
  datatype Recommendation = Recommendation(kind: string, impact: Severity, description: string, potentialSavings: int)
  datatype BundleReport = BundleReport(totalSize: nat, bundles: seq<Bundle>, issues: seq<Issue>,
                                       recommendations: seq<Recommendation>)
  datatype BundleResult = BundleResult(score: int, report: BundleReport)

  /** What fetching one asset yields: its body, the gzip length, and for a stylesheet
      the rule coverage measured against the page. */
  datatype Fetched = Fetched(content: string, gzipSize: nat, cssCoverage: Option<int>)

  /** A `<script src>` or `<link rel="stylesheet" href>`: the attribute, and the fetch
      (`None` when it throws). */
  datatype Asset = Asset(src: Option<string>, fetched: Option<Fetched>)

  /** The `scripts` and `stylesheets` of the fetched page. */
  datatype BundlePage = BundlePage(scripts: seq<Asset>, stylesheets: seq<Asset>)

  /** `detectTreeshaking`. */
  predicate DetectTreeshaking(content: string) {
    Contains(content, "export ") || Contains(content, "import ") ||
    Contains(content, "module.exports") || Contains(content, "require(")
  }

  /** `src.split('/').pop() || src`. */
  function BundleName(src: string): (r: string)
    ensures |r| > 0 || src == ""
  {
    var last := AfterLast(src, '/');
    if last == "" then src else last
  }

  /** Skipped: no attribute, an empty one, or a `data:` URL. */
  predicate Skipped(a: Asset) {
    !Truthy(a.src) || Contains(a.src.value, "data:")
  }

  /** The bundle one asset contributes, if any. */
  function BundleOf(a: Asset, kind: Kind): (r: Option<Bundle>)
    ensures r.Some? <==> !Skipped(a) && a.fetched.Some?
    ensures r.Some? ==> r.value.kind == kind && r.value.size == Utf8Length(a.fetched.value.content)
    ensures r.Some? && kind == Js ==> r.value.coverage == Some(70) &&
                                      (r.value.treeshakeable <==> DetectTreeshaking(a.fetched.value.content))
    ensures r.Some? && kind == Css ==> r.value.treeshakeable && r.value.coverage == a.fetched.value.cssCoverage
  {
    if Skipped(a) || a.fetched.None? then None
    else
      var f := a.fetched.value;
      var size := Utf8Length(f.content);
      match kind
      case Js => Some(Bundle(BundleName(a.src.value), size, Js, f.gzipSize, DetectTreeshaking(f.content), Some(70)))
      case Css => Some(Bundle(BundleName(a.src.value), size, Css, f.gzipSize, true, f.cssCoverage))
  }

  /** The bundles of `assets`, in document order. */
  function Bundles(assets: seq<Asset>, kind: Kind): (r: seq<Bundle>)
    ensures |r| <= |assets|
    decreases |assets|
  {
    if |assets| == 0 then []
    else
      var init := Bundles(assets[..|assets| - 1], kind);
      match BundleOf(assets[|assets| - 1], kind)
      case None => init
      case Some(b) => init + [b]
  }

  /** Every bundle of `assets` has the requested kind; scripts' coverage is 70. */
  lemma {:induction false} BundlesHaveKind(assets: seq<Asset>, kind: Kind)
    ensures forall i :: 0 <= i < |Bundles(assets, kind)| ==> Bundles(assets, kind)[i].kind == kind
    ensures kind == Js ==> forall i :: 0 <= i < |Bundles(assets, kind)| ==> Bundles(assets, kind)[i].coverage == Some(70)
    decreases |assets|
  {
    if |assets| > 0 {
      BundlesHaveKind(assets[..|assets| - 1], kind);
    }
  }

  /** `analyzeJavaScriptBundles` / `analyzeCSSBundles`: skip, fetch, push. */
  method AnalyzeAssets(assets: seq<Asset>, kind: Kind) returns (bundles: seq<Bundle>)
    ensures bundles == Bundles(assets, kind)
  {
    bundles := [];
    var i := 0;
    while i < |assets|
      invariant 0 <= i <= |assets|
      invariant bundles == Bundles(assets[..i], kind)
    {
      var a := assets[i];
      assert assets[..i + 1][..i] == assets[..i];
      i := i + 1;
      if !Truthy(a.src) || Contains(a.src.value, "data:") {
        continue;
      }
      if a.fetched.None? {
        continue;
      }
      var content := a.fetched.value.content;
      var size := Utf8Length(content);
      if kind == Js {
        bundles := bundles + [Bundle(BundleName(a.src.value), size, Js, a.fetched.value.gzipSize,
                                     DetectTreeshaking(content), Some(70))];
      } else {
        bundles := bundles + [Bundle(BundleName(a.src.value), size, Css, a.fetched.value.gzipSize,
                                     true, a.fetched.value.cssCoverage)];
      }
    }
    assert assets[..i] == assets;
  }

  /** `bundles.reduce((sum, b) => sum + b.size, 0)`. */
  function TotalSize(bs: seq<Bundle>): nat
    decreases |bs|
  {
    if |bs| == 0 then 0 else TotalSize(bs[..|bs| - 1]) + bs[|bs| - 1].size
  }

  /** The sum splits over concatenation and bounds every single bundle. */
  lemma {:induction false} TotalSizeAppend(a: seq<Bundle>, b: seq<Bundle>)
    ensures TotalSize(a + b) == TotalSize(a) + TotalSize(b)
    decreases |b|
  {
    if |b| > 0 {
      assert (a + b)[..|a + b| - 1] == a + b[..|b| - 1];
      assert (a + b)[|a + b| - 1] == b[|b| - 1];
      TotalSizeAppend(a, b[..|b| - 1]);
    } else {
      assert a + b == a;
    }
  }

  lemma {:induction false} TotalSizeBoundsEach(bs: seq<Bundle>, i: nat)
    requires i < |bs|
    ensures bs[i].size <= TotalSize(bs)
    decreases |bs|
  {
    if i < |bs| - 1 {
      TotalSizeBoundsEach(bs[..|bs| - 1], i);
    }
  }

  predicate LargeJs(b: Bundle) {
    b.kind == Js && b.size > 250000
  }

  /** `bundle.coverage < 50`, which is false for `NaN`. */
  predicate LowCoverage(b: Bundle) {
    b.coverage.Some? && b.coverage.value < 50
  }

  function SizeIssue(b: Bundle): Issue {
    Issue(High, "Large JavaScript bundle: " + b.name + " (" + NatToString(RoundRatio(b.size, 1024)) + "KB)",
          "Consider code splitting or lazy loading")
  }

  /** `Math.round(size * 0.4)`. */
  function SizeRecommendation(b: Bundle): Recommendation {
    Recommendation("code-splitting", High, "Split " + b.name + " into smaller chunks", RoundRatio(2 * b.size, 5))
  }

  function CoverageIssue(b: Bundle): Issue
    requires LowCoverage(b)
  {
    Issue(Medium, "Low code coverage in " + b.name + " (" + IntToString(b.coverage.value) + "%)",
          "Remove unused code through tree-shaking")
  }

  /** `Math.round(size * (1 - coverage / 100))`. */
  function CoverageRecommendation(b: Bundle): Recommendation
    requires LowCoverage(b)
  {
    Recommendation("dead-code-elimination", Medium, "Remove unused code from " + b.name,
                   RoundRatio(b.size * (100 - b.coverage.value), 100))
  }

  function IssuesFor(b: Bundle): seq<Issue> {
    (if LargeJs(b) then [SizeIssue(b)] else []) + (if LowCoverage(b) then [CoverageIssue(b)] else [])
  }

  function RecommendationsFor(b: Bundle): seq<Recommendation> {
    (if LargeJs(b) then [SizeRecommendation(b)] else []) + (if LowCoverage(b) then [CoverageRecommendation(b)] else [])
  }

  function Issues(bs: seq<Bundle>): seq<Issue>
    decreases |bs|
  {
    if |bs| == 0 then [] else Issues(bs[..|bs| - 1]) + IssuesFor(bs[|bs| - 1])
  }

  function Recommendations(bs: seq<Bundle>): seq<Recommendation>
    decreases |bs|
  {
    if |bs| == 0 then [] else Recommendations(bs[..|bs| - 1]) + RecommendationsFor(bs[|bs| - 1])
  }

  /** The two checks of the loop body of `generateBundleRecommendations` for one bundle. */
  method BundleAdvice(b: Bundle) returns (found: seq<Issue>, advice: seq<Recommendation>)
    ensures found == IssuesFor(b) && advice == RecommendationsFor(b)
  {
    found, advice := [], [];
    if b.kind == Js && b.size > 250000 {
      found := found + [SizeIssue(b)];
      advice := advice + [SizeRecommendation(b)];
    }
    if LowCoverage(b) {
      found := found + [CoverageIssue(b)];
      advice := advice + [CoverageRecommendation(b)];
    }
  }

  /** One more bundle adds its own issues and recommendations at the end. */
  lemma PrefixStep(bs: seq<Bundle>, i: nat)
    requires i < |bs|
    ensures Issues(bs[..i + 1]) == Issues(bs[..i]) + IssuesFor(bs[i])
    ensures Recommendations(bs[..i + 1]) == Recommendations(bs[..i]) + RecommendationsFor(bs[i])
  {
    assert bs[..i + 1][..i] == bs[..i];
  }

  /** `generateBundleRecommendations`. */
  method GenerateBundleRecommendations(bs: seq<Bundle>) returns (issues: seq<Issue>, recs: seq<Recommendation>)
    ensures issues == Issues(bs) && recs == Recommendations(bs)
  {
    issues, recs := [], [];
    var i := 0;
    while i < |bs|
      invariant 0 <= i <= |bs|
      invariant issues == Issues(bs[..i]) && recs == Recommendations(bs[..i])
    {
      var found, advice := BundleAdvice(bs[i]);
      PrefixStep(bs, i);
      issues, recs := issues + found, recs + advice;
      i := i + 1;
    }
    assert bs[..i] == bs;
  }

  /** Issues and recommendations come in pairs of equal severity and impact. */
  lemma {:induction false} IssuesPairWithRecommendations(bs: seq<Bundle>)
    ensures |Issues(bs)| == |Recommendations(bs)|
    ensures forall i :: 0 <= i < |Issues(bs)| ==> Issues(bs)[i].severity == Recommendations(bs)[i].impact
    decreases |bs|
  {
    if |bs| > 0 {
      IssuesPairWithRecommendations(bs[..|bs| - 1]);
    }
  }

  /** Stylesheets never get the size issue; a large script gets exactly one. */
  lemma SizeIssueOnlyForLargeScripts(b: Bundle)
    ensures (exists i :: 0 <= i < |IssuesFor(b)| && IssuesFor(b)[i].severity == High) <==> LargeJs(b)
    ensures LargeJs(b) ==> IssuesFor(b)[0] == SizeIssue(b) && RecommendationsFor(b)[0].potentialSavings == RoundRatio(2 * b.size, 5)
  {
    if LargeJs(b) {
      assert IssuesFor(b)[0].severity == High;
    }
  }

  /** More than 1 MB deducts 20, more than 500 kB 10. */
  function SizeDeduction(totalSize: nat): (d: nat)
    ensures d == 0 || d == 10 || d == 20
    ensures d == 0 <==> totalSize <= 500000
    ensures d == 20 <==> totalSize > 1000000
  {
    if totalSize > 1000000 then 20 else if totalSize > 500000 then 10 else 0
  }

  /** A larger page is never deducted less. */
  lemma SizeDeductionMonotone(smaller: nat, larger: nat)
    requires smaller <= larger
    ensures SizeDeduction(smaller) <= SizeDeduction(larger)
  {
  }

  function BundleDeduction(b: Bundle): nat {
    (if b.size > 250000 then 5 else 0) + (if LowCoverage(b) then 5 else 0)
  }

  function BundleDeductions(bs: seq<Bundle>): nat
    decreases |bs|
  {
    if |bs| == 0 then 0 else BundleDeductions(bs[..|bs| - 1]) + BundleDeduction(bs[|bs| - 1])
  }

  function SeverityDeduction(s: Severity): nat {
    match s
    case High => 10
    case Medium => 5
    case Low => 2
  }

  function IssueDeductions(issues: seq<Issue>): nat
    decreases |issues|
  {
    if |issues| == 0 then 0 else IssueDeductions(issues[..|issues| - 1]) + SeverityDeduction(issues[|issues| - 1].severity)
  }

  /** `calculateBundleScore`. */
  method CalculateBundleScore(totalSize: nat, bs: seq<Bundle>, issues: seq<Issue>) returns (score: int)
    ensures score == Clamp(100 - SizeDeduction(totalSize) - BundleDeductions(bs) - IssueDeductions(issues))
    ensures 0 <= score <= 100
  {
    score := 100;
    if totalSize > 1000000 { score := score - 20; }
    else if totalSize > 500000 { score := score - 10; }
    var i := 0;
    while i < |bs|
      invariant 0 <= i <= |bs|
      invariant score == 100 - SizeDeduction(totalSize) - BundleDeductions(bs[..i])
    {
      if bs[i].size > 250000 { score := score - 5; }
      if LowCoverage(bs[i]) { score := score - 5; }
      assert bs[..i + 1][..i] == bs[..i];
      i := i + 1;
    }
    assert bs[..i] == bs;
    var j := 0;
    while j < |issues|
      invariant 0 <= j <= |issues|
      invariant score == 100 - SizeDeduction(totalSize) - BundleDeductions(bs) - IssueDeductions(issues[..j])
    {
      match issues[j].severity {
        case High => score := score - 10;
        case Medium => score := score - 5;
        case Low => score := score - 2;
      }
      assert issues[..j + 1][..j] == issues[..j];
      j := j + 1;
    }
    assert issues[..j] == issues;
    score := Clamp(score);
  }

  lemma {:induction false} IssueDeductionsAppend(a: seq<Issue>, b: seq<Issue>)
    ensures IssueDeductions(a + b) == IssueDeductions(a) + IssueDeductions(b)
    decreases |b|
  {
    if |b| > 0 {
      assert (a + b)[..|a + b| - 1] == a + b[..|b| - 1];
      assert (a + b)[|a + b| - 1] == b[|b| - 1];
      IssueDeductionsAppend(a, b[..|b| - 1]);
    } else {
      assert a + b == a;
    }
  }

  /** What one bundle costs before the clamp: its own deductions and its issues'. */
  function Cost(b: Bundle): nat {
    (if b.size > 250000 then 5 else 0) + (if LargeJs(b) then 10 else 0) + (if LowCoverage(b) then 10 else 0)
  }

  /** The deductions a bundle list causes are the sum of each bundle's cost. */
  lemma BundleCost(bs: seq<Bundle>, b: Bundle)
    ensures BundleDeductions(bs + [b]) + IssueDeductions(Issues(bs + [b])) ==
            BundleDeductions(bs) + IssueDeductions(Issues(bs)) + Cost(b)
  {
    assert (bs + [b])[..|bs|] == bs;
    IssueDeductionsAppend(Issues(bs), IssuesFor(b));
    var first := if LargeJs(b) then [SizeIssue(b)] else [];
    var second := if LowCoverage(b) then [CoverageIssue(b)] else [];
    IssueDeductionsAppend(first, second);
    assert IssueDeductions([] + [SizeIssue(b)]) == 10;
    assert LowCoverage(b) ==> IssueDeductions([] + [CoverageIssue(b)]) == 5;
  }

  /** A large script with normal coverage lowers the raw score by 15, 5 for its size
      and 10 for its high issue; a large stylesheet only by 5. */
  lemma LargeBundleCosts(b: Bundle)
    requires b.size > 250000 && !LowCoverage(b)
    ensures Cost(b) == (if b.kind == Js then 15 else 5)
  {
  }

  /** The result `analyzeBundles` builds from the bundles it found. */
  function AnalysisOf(bs: seq<Bundle>): (r: BundleResult)
    ensures 0 <= r.score <= 100
    ensures |r.report.issues| == |r.report.recommendations|
    ensures r.report.totalSize == TotalSize(bs) && r.report.bundles == bs
  {
    IssuesPairWithRecommendations(bs);
    BundleResult(Clamp(100 - SizeDeduction(TotalSize(bs)) - BundleDeductions(bs) - IssueDeductions(Issues(bs))),
                 BundleReport(TotalSize(bs), bs, Issues(bs), Recommendations(bs)))
  }

  /** The result `analyzeBundles` builds from a fetched page: scripts first, then
      stylesheets. */
  function Analysis(page: BundlePage): (r: BundleResult)
    ensures 0 <= r.score <= 100
    ensures |r.report.issues| == |r.report.recommendations|
    ensures r.report.totalSize == TotalSize(r.report.bundles)
    ensures r.report.bundles == Bundles(page.scripts, Js) + Bundles(page.stylesheets, Css)
  {
    AnalysisOf(Bundles(page.scripts, Js) + Bundles(page.stylesheets, Css))
  }

  /** `analyzeBundles(url)`: the page fetch failing is rethrown. */
  method AnalyzeBundles(page: Result<BundlePage>) returns (r: Result<BundleResult>)
    ensures page.Err? ==> r == Err(page.error)
    ensures page.Ok? ==> r == Ok(Analysis(page.value))
  {
    if page.Err? { return Err(page.error); }
    var jsBundles := AnalyzeAssets(page.value.scripts, Js);
    var cssBundles := AnalyzeAssets(page.value.stylesheets, Css);
    var bundles := jsBundles + cssBundles;
    var totalSize := TotalSize(bundles);
    var issues, recommendations := GenerateBundleRecommendations(bundles);
    var score := CalculateBundleScore(totalSize, bundles, issues);
    assert AnalysisOf(bundles) == BundleResult(score, BundleReport(totalSize, bundles, issues, recommendations));
    r := Ok(BundleResult(score, BundleReport(totalSize, bundles, issues, recommendations)));
  }
}
