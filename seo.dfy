/** The SEO analyzer's scoring rules: five checks, each classified good / warning /
    bad from facts already extracted from the rendered page, and their average. */
module Seo {
  import opened Wrappers
  import opened Strings
  import opened Url
  import opened Seqs
  import opened Rounding

  datatype Status = Good | Warning | Bad

  /** The report shape shared by the title and the meta-description checks. */
  datatype TextReport = TextReport(value: string, length: nat, status: Status, message: string)
  datatype HeadingsReport = HeadingsReport(h1Count: nat, h1Text: seq<string>, status: Status, message: string)
  datatype ImagesReport = ImagesReport(total: nat, missing: nat, status: Status, message: string)
  datatype LinksReport = LinksReport(internal: nat, external: nat, broken: nat, status: Status, message: string)
  datatype SeoReport = SeoReport(title: TextReport, description: TextReport, headings: HeadingsReport,
                                 images: ImagesReport, links: LinksReport)
  datatype SeoResult = SeoResult(score: int, report: SeoReport)

  /** What the browser and the HTML parser extract from the page: the trimmed `<title>`
      text, the description `content` attribute, each trimmed `<h1>` text, each `<img>`'s
      `alt` attribute and each `<a>`'s `href` attribute. */
  datatype PageFacts = PageFacts(title: string, description: Option<string>, h1Texts: seq<string>,
                                 imageAlts: seq<Option<string>>, linkHrefs: seq<Option<string>>)

  /** The shared length rule: empty is bad, outside `[lo, hi]` is a warning. */
  function LengthStatus(len: nat, lo: nat, hi: nat): (s: Status)
    ensures s == Bad <==> len == 0
    ensures s == Good <==> 0 < len && lo <= len <= hi
  {
    if len == 0 then Bad else if len < lo || len > hi then Warning else Good
  }

  function AnalyzeTitleTag(title: string): (r: TextReport)
    ensures r.value == title && r.length == |title|
    ensures r.status == LengthStatus(|title|, 30, 60)
    ensures r.status == Bad ==> r.message == "Missing title tag"
    ensures r.status == Good ==> r.message == "Title tag is well-optimized"
  {
    var length := |title|;
    if length == 0 then TextReport(title, length, Bad, "Missing title tag")
    else if length < 30 || length > 60 then
      TextReport(title, length, Warning,
        "Title length (" + NatToString(length) + " characters) is " +
        (if length < 30 then "too short" else "too long") + ". Optimal length is 30-60 characters.")
    else TextReport(title, length, Good, "Title tag is well-optimized")
  }

  function AnalyzeMetaDescription(description: string): (r: TextReport)
    ensures r.value == description && r.length == |description|
    ensures r.status == LengthStatus(|description|, 120, 155)
    ensures r.status == Bad ==> r.message == "Missing meta description"
    ensures r.status == Good ==> r.message == "Meta description is well-optimized"
  {
    var length := |description|;
    if length == 0 then TextReport(description, length, Bad, "Missing meta description")
    else if length < 120 || length > 155 then
      TextReport(description, length, Warning,
        "Description length (" + NatToString(length) + " characters) is " +
        (if length < 120 then "too short" else "too long") + ". Optimal length is 120-155 characters.")
    else TextReport(description, length, Good, "Meta description is well-optimized")
  }

  function AnalyzeHeadings(h1Texts: seq<string>): (r: HeadingsReport)
    ensures r.h1Count == |h1Texts| && r.h1Text == h1Texts
    ensures r.status == Bad <==> |h1Texts| == 0
    ensures r.status == Warning <==> |h1Texts| > 1
    ensures r.status == Good <==> |h1Texts| == 1
  {
    var h1Count := |h1Texts|;
    if h1Count == 0 then HeadingsReport(h1Count, h1Texts, Bad, "Missing H1 heading")
    else if h1Count > 1 then
      HeadingsReport(h1Count, h1Texts, Warning, "Multiple H1 headings found. Consider using only one main H1 heading.")
    else HeadingsReport(h1Count, h1Texts, Good, "H1 heading is properly used")
  }

  /** `!$(el).attr('alt')`: no attribute, or an empty one. */
  predicate MissingAlt(alt: Option<string>) {
    !Truthy(alt)
  }

  function AnalyzeImages(alts: seq<Option<string>>): (r: ImagesReport)
    ensures r.total == |alts| && r.missing == Count(alts, MissingAlt)
    ensures r.missing <= r.total
    ensures r.status != Bad
    ensures r.status == Good <==> |alts| > 0 && forall i :: 0 <= i < |alts| ==> Truthy(alts[i])
  {
    var total := |alts|;
    var missing := Count(alts, MissingAlt);
    if total == 0 then ImagesReport(total, missing, Warning, "No images found on the page")
    else if missing > 0 then
      ImagesReport(total, missing, Warning,
        NatToString(missing) + " out of " + NatToString(total) + " images are missing alt text")
    else ImagesReport(total, missing, Good, "All images have alt text")
  }

  /** `href.startsWith('/') || href.includes(hostname)`, with a missing `href` read as `''`. */
  /** `attr(...) || ''`: an absent attribute reads as the empty string. */
  function OrEmpty(attr: Option<string>): string {
    if attr.Some? then attr.value else ""
  }

  /** The base url's hostname, when `new URL(baseUrl)` does not throw. */
  function BaseHost(baseUrl: string): Option<string> {
    if ParseUrl(baseUrl).Some? then Some(ParseUrl(baseUrl).value.hostname) else None
  }

  /** The filter of `analyzeLinks`: the `||` only builds the base url for an href that
      does not start with `/`. */
  function IsInternal(host: Option<string>): Option<string> -> bool {
    (href: Option<string>) =>
      StartsWith(OrEmpty(href), "/") || (host.Some? && Contains(OrEmpty(href), host.value))
  }

  /** Some link makes the filter parse the base url. */
  predicate ParsesBase(hrefs: seq<Option<string>>) {
    exists i :: 0 <= i < |hrefs| && !StartsWith(OrEmpty(hrefs[i]), "/")
  }

  function AnalyzeLinks(hrefs: seq<Option<string>>, baseUrl: string): (r: Option<LinksReport>)
    ensures r.None? <==> ParseUrl(baseUrl).None? && ParsesBase(hrefs)
    ensures r.Some? ==> r.value.internal + r.value.external == |hrefs| && r.value.broken == 0
    ensures r.Some? ==> r.value.internal == Count(hrefs, IsInternal(BaseHost(baseUrl)))
    ensures r.Some? && ParseUrl(baseUrl).None? ==> r.value.internal == |hrefs|
    ensures r.Some? ==> (r.value.status == Good <==> |hrefs| > 0) && r.value.status != Bad
  {
    if ParseUrl(baseUrl).None? && ParsesBase(hrefs) then None
    else
      var internal := Count(hrefs, IsInternal(BaseHost(baseUrl)));
      var external := |hrefs| - internal;
      if |hrefs| == 0 then Some(LinksReport(internal, external, 0, Warning, "No links found on the page"))
      else
        Some(LinksReport(internal, external, 0, Good,
          "Found " + NatToString(|hrefs|) + " links (" + NatToString(internal) + " internal, " +
          NatToString(external) + " external)"))
  }

  /** The weights good = 1, warning = 0.5, bad = 0, counted in halves. */
  function HalfWeight(s: Status): (w: nat)
    ensures w <= 2
  {
    match s
    case Good => 2
    case Warning => 1
    case Bad => 0
  }

  function HalfWeights(statuses: seq<Status>): (h: nat)
    ensures h <= 2 * |statuses|
    decreases |statuses|
  {
    if |statuses| == 0 then 0 else HalfWeight(statuses[0]) + HalfWeights(statuses[1..])
  }

  /** `calculateScore`: `Math.round(sum of weights / count * 100)`; `None` stands for
      the `NaN` an empty record gives. */
  function CalculateScore(statuses: seq<Status>): (r: Option<int>)
    ensures r.None? <==> |statuses| == 0
  {
    if |statuses| == 0 then None
    else Some(RoundRatio(100 * HalfWeights(statuses), 2 * |statuses|))
  }

  /** The score lies in [0, 100]; all good gives 100 and all bad gives 0. */
  lemma ScoreBounds(statuses: seq<Status>)
    requires |statuses| > 0
    ensures 0 <= CalculateScore(statuses).value <= 100
    ensures (forall i :: 0 <= i < |statuses| ==> statuses[i] == Good) ==> CalculateScore(statuses) == Some(100)
    ensures (forall i :: 0 <= i < |statuses| ==> statuses[i] == Bad) ==> CalculateScore(statuses) == Some(0)
  {
    var n := |statuses|;
    RoundRatioMonotone(0, 100 * HalfWeights(statuses), 2 * n);
    RoundRatioMonotone(100 * HalfWeights(statuses), 100 * (2 * n), 2 * n);
    RoundRatioExact(0, 2 * n);
    RoundRatioExact(100, 2 * n);
    if forall i :: 0 <= i < n ==> statuses[i] == Good {
      AllGoodWeights(statuses);
    }
    if forall i :: 0 <= i < n ==> statuses[i] == Bad {
      AllBadWeights(statuses);
    }
  }

  lemma {:induction false} AllGoodWeights(statuses: seq<Status>)
    requires forall i :: 0 <= i < |statuses| ==> statuses[i] == Good
    ensures HalfWeights(statuses) == 2 * |statuses|
    decreases |statuses|
  {
    if |statuses| > 0 {
      AllGoodWeights(statuses[1..]);
    }
  }

  lemma {:induction false} AllBadWeights(statuses: seq<Status>)
    requires forall i :: 0 <= i < |statuses| ==> statuses[i] == Bad
    ensures HalfWeights(statuses) == 0
    decreases |statuses|
  {
    if |statuses| > 0 {
      AllBadWeights(statuses[1..]);
    }
  }

  /** Improving one check's status never lowers the score. */
  lemma ImprovingNeverLowersScore(statuses: seq<Status>, i: nat, better: Status)
    requires i < |statuses| && HalfWeight(statuses[i]) <= HalfWeight(better)
    ensures CalculateScore(statuses).value <= CalculateScore(statuses[i := better]).value
  {
    WeightsUpdate(statuses, i, better);
    RoundRatioMonotone(100 * HalfWeights(statuses), 100 * HalfWeights(statuses[i := better]), 2 * |statuses|);
  }

  lemma {:induction false} WeightsUpdate(statuses: seq<Status>, i: nat, s: Status)
    requires i < |statuses|
    ensures HalfWeights(statuses[i := s]) == HalfWeights(statuses) - HalfWeight(statuses[i]) + HalfWeight(s)
    decreases |statuses|
  {
    if i > 0 {
      assert statuses[i := s][1..] == statuses[1..][i - 1 := s];
      WeightsUpdate(statuses[1..], i - 1, s);
    } else {
      assert statuses[i := s][1..] == statuses[1..];
    }
  }

  /** For the analyzer's five checks the average is exact: 20 per good, 10 per warning. */
  lemma FiveChecksScore(a: Status, b: Status, c: Status, d: Status, e: Status)
    ensures CalculateScore([a, b, c, d, e]) ==
            Some(10 * (HalfWeight(a) + HalfWeight(b) + HalfWeight(c) + HalfWeight(d) + HalfWeight(e)))
  {
    var s := [a, b, c, d, e];
    var h := HalfWeight(a) + HalfWeight(b) + HalfWeight(c) + HalfWeight(d) + HalfWeight(e);
    assert s[1..] == [b, c, d, e] && s[1..][1..] == [c, d, e] && s[1..][1..][1..] == [d, e];
    assert s[1..][1..][1..][1..] == [e] && [e][1..] == [];
    assert HalfWeights([e]) == HalfWeight(e);
    assert HalfWeights([d, e]) == HalfWeight(d) + HalfWeight(e);
    assert HalfWeights([c, d, e]) == HalfWeight(c) + HalfWeight(d) + HalfWeight(e);
    assert HalfWeights(s) == h;
    RoundRatioExact(10 * h, 10);
  }

  /** The report of the `catch` branch. */
  const ERROR_RESULT := SeoResult(0, SeoReport(
    TextReport("", 0, Bad, "Error analyzing title tag"),
    TextReport("", 0, Bad, "Error analyzing meta description"),
    HeadingsReport(0, [], Bad, "Error analyzing headings"),
    ImagesReport(0, 0, Bad, "Error analyzing images"),
    LinksReport(0, 0, 0, Bad, "Error analyzing links")))

  function Statuses(rep: SeoReport): seq<Status> {
    [rep.title.status, rep.description.status, rep.headings.status, rep.images.status, rep.links.status]
  }

  /** `analyzeSEO(url)`; `page` is `None` when the browser fails to load the page. */
  function AnalyzeSeo(url: string, page: Option<PageFacts>): (r: SeoResult)
    ensures 0 <= r.score <= 100
    ensures page.None? ==> r == ERROR_RESULT
    ensures r != ERROR_RESULT ==> Some(r.score) == CalculateScore(Statuses(r.report))
    ensures r.report.title == ERROR_RESULT.report.title <==> r == ERROR_RESULT
    ensures r != ERROR_RESULT ==> page.Some?
    ensures r != ERROR_RESULT ==> r.report.title == AnalyzeTitleTag(page.value.title)
    ensures r != ERROR_RESULT ==> r.report.description == AnalyzeMetaDescription(OrEmpty(page.value.description))
    ensures r != ERROR_RESULT ==> r.report.headings == AnalyzeHeadings(page.value.h1Texts)
    ensures r != ERROR_RESULT ==> r.report.images == AnalyzeImages(page.value.imageAlts)
    ensures r != ERROR_RESULT ==> Some(r.report.links) == AnalyzeLinks(page.value.linkHrefs, url)
    ensures page.Some? ==> (r == ERROR_RESULT <==> AnalyzeLinks(page.value.linkHrefs, url).None?)
  {
    if page.None? then ERROR_RESULT
    else
      var p := page.value;
      var links := AnalyzeLinks(p.linkHrefs, url);
      if links.None? then ERROR_RESULT
      else
        var rep := SeoReport(
          AnalyzeTitleTag(p.title),
          AnalyzeMetaDescription(OrEmpty(p.description)),
          AnalyzeHeadings(p.h1Texts),
          AnalyzeImages(p.imageAlts),
          links.value);
        ScoreBounds(Statuses(rep));
        SeoResult(CalculateScore(Statuses(rep)).value, rep)
  }

  /** The fallback scores 0 with every check bad. */
  lemma ErrorResultIsAllBad()
    ensures ERROR_RESULT.score == 0
    ensures forall i :: 0 <= i < 5 ==> Statuses(ERROR_RESULT.report)[i] == Bad
  {
  }
}
