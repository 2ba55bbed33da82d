/** The carbon-footprint analyzer: transfer size, the emission estimate, the
    HTTP Archive percentile table and the size-threshold recommendations. */
module CarbonFootprint {
  import opened Wrappers
  import opened Strings
  import opened Rounding

  datatype CarbonRecommendation = CarbonRecommendation(kind: string, potential: int, description: string)
  datatype CarbonReport = CarbonReport(totalSize: nat, co2PerPage: real, annualEmissions: real, cleanerThan: int,
                                       recommendations: seq<CarbonRecommendation>)
  datatype CarbonResult = CarbonResult(score: int, report: CarbonReport)

  /** The fetched page: its `content-length` header (already parsed), its body, and
      the summed `content-length` of its images and of its scripts. */
  datatype CarbonPage = CarbonPage(contentLength: Option<nat>, html: string, imageSize: nat, scriptSize: nat)

  datatype Percentile = Percentile(value: real, rank: int)

  /** The HTTP Archive thresholds, in ascending order. */
  const PERCENTILES: seq<Percentile> := [
    Percentile(0.5, 90), Percentile(1.0, 75), Percentile(2.0, 50), Percentile(4.0, 25), Percentile(6.0, 10)
  ]

  /** The reference reading of the table: the rank of the first threshold at or above `co2`. */
  function Rank(co2: real): int {
    if co2 <= 0.5 then 90
    else if co2 <= 1.0 then 75
    else if co2 <= 2.0 then 50
    else if co2 <= 4.0 then 25
    else if co2 <= 6.0 then 10
    else 0
  }

  /** `calculatePercentileRank`: scan the table, return at the first threshold reached. */
  method CalculatePercentileRank(co2: real) returns (rank: int)
    ensures rank == Rank(co2)
  {
    var i := 0;
    while i < |PERCENTILES|
      invariant 0 <= i <= |PERCENTILES|
      invariant forall j :: 0 <= j < i ==> co2 > PERCENTILES[j].value
    {
      if co2 <= PERCENTILES[i].value {
        assert i > 0 ==> co2 > PERCENTILES[i - 1].value;
        return PERCENTILES[i].rank;
      }
      i := i + 1;
    }
    assert co2 > PERCENTILES[4].value;
    return 0;
  }

  /** More emissions never rank a page as cleaner. */
  lemma RankNonIncreasing(a: real, b: real)
    requires a <= b
    ensures Rank(b) <= Rank(a)
  {
  }

  lemma RankInRange(co2: real)
    ensures 0 <= Rank(co2) <= 90
    ensures Rank(co2) == 0 <==> co2 > 6.0
  {
  }

  const IMAGE_BUDGET := 500000
  const SCRIPT_BUDGET := 300000

  /** `Math.round((size - budget) / 1024)`, in kB above the budget. */
  function Potential(size: nat, budget: nat): int {
    RoundRatio(size - budget, 1024)
  }

  const IMAGES_ADVICE := "Optimize and compress images to reduce their size"
  const SCRIPTS_ADVICE := "Minimize JavaScript and remove unused code"

  /** The images entry when images exceed their budget, then the javascript entry when
      scripts exceed theirs. */
  function RecommendationsFor(imageSize: nat, scriptSize: nat): seq<CarbonRecommendation> {
    (if imageSize > IMAGE_BUDGET then [CarbonRecommendation("images", Potential(imageSize, IMAGE_BUDGET), IMAGES_ADVICE)] else []) +
    (if scriptSize > SCRIPT_BUDGET then [CarbonRecommendation("javascript", Potential(scriptSize, SCRIPT_BUDGET), SCRIPTS_ADVICE)] else [])
  }

  /** `generateRecommendations`; the page size is passed but never consulted. */
  method GenerateRecommendations(pageSize: nat, imageSize: nat, scriptSize: nat)
    returns (recs: seq<CarbonRecommendation>)
    ensures recs == RecommendationsFor(imageSize, scriptSize)
    ensures |recs| <= 2
    ensures (exists i :: 0 <= i < |recs| && recs[i].kind == "images") <==> imageSize > IMAGE_BUDGET
    ensures (exists i :: 0 <= i < |recs| && recs[i].kind == "javascript") <==> scriptSize > SCRIPT_BUDGET
    ensures imageSize > IMAGE_BUDGET ==>
              recs[0] == CarbonRecommendation("images", Potential(imageSize, IMAGE_BUDGET), IMAGES_ADVICE)
    ensures scriptSize > SCRIPT_BUDGET ==>
              recs[|recs| - 1] == CarbonRecommendation("javascript", Potential(scriptSize, SCRIPT_BUDGET), SCRIPTS_ADVICE)
    ensures forall i :: 0 <= i < |recs| ==> recs[i].potential >= 0
  {
    recs := [];
    if imageSize > IMAGE_BUDGET {
      recs := recs + [CarbonRecommendation("images", Potential(imageSize, IMAGE_BUDGET), IMAGES_ADVICE)];
      assert recs[0].kind == "images";
    }
    ghost var before := recs;
    if scriptSize > SCRIPT_BUDGET {
      recs := recs + [CarbonRecommendation("javascript", Potential(scriptSize, SCRIPT_BUDGET), SCRIPTS_ADVICE)];
      assert recs[|recs| - 1].kind == "javascript";
    }
    assert "images"[0] != "javascript"[0];
    assert forall i :: 0 <= i < |before| ==> before[i].kind == "images";
    assert imageSize > IMAGE_BUDGET ==> recs[0].kind == "images";
    assert imageSize <= IMAGE_BUDGET ==> forall i :: 0 <= i < |recs| ==> recs[i].kind == "javascript";
  }

  /** `content-length` when the header is set, else the UTF-8 length of the body. */
  function PageSize(page: CarbonPage): nat {
    if page.contentLength.Some? then page.contentLength.value else Utf8Length(page.html)
  }

  /** Grams per page view: `kB * 0.2 kWh/kB * 442 g/kWh / 1000`. */
  function Co2PerPage(totalSize: nat): (g: real)
    ensures g >= 0.0
  {
    (totalSize as real / 1024.0) * 0.2 * 442.0 / 1000.0
  }

  /** `Math.round(x)` for a real `x`. */
  function RoundReal(x: real): int {
    (x + 0.5).Floor
  }

  /** `Math.round(Math.max(0, 100 - co2 * 10))`. */
  function CarbonScore(co2: real): (s: int)
    requires co2 >= 0.0
    ensures 0 <= s <= 100
  {
    var raw := if 100.0 - co2 * 10.0 > 0.0 then 100.0 - co2 * 10.0 else 0.0;
    RoundReal(raw)
  }

  /** A heavier page never scores higher. */
  lemma ScoreNonIncreasing(a: real, b: real)
    requires 0.0 <= a <= b
    ensures CarbonScore(b) <= CarbonScore(a)
  {
  }

  /** `analyzeCarbonFootprint(url)`; a failed fetch is rethrown. */
  method AnalyzeCarbonFootprint(page: Result<CarbonPage>) returns (r: Result<CarbonResult>)
    ensures page.Err? ==> r == Err(page.error)
    ensures page.Ok? ==> r.Ok?
    ensures page.Ok? ==>
              var p := page.value;
              var co2 := Co2PerPage(PageSize(p) + p.imageSize + p.scriptSize);
              r.value.report.totalSize == PageSize(p) + p.imageSize + p.scriptSize &&
              r.value.report.co2PerPage == co2 &&
              r.value.report.annualEmissions == co2 * 120000.0 / 1000.0 &&
              r.value.report.cleanerThan == Rank(co2) &&
              r.value.score == CarbonScore(co2) && 0 <= r.value.score <= 100 &&
              |r.value.report.recommendations| <= 2
    ensures page.Ok? ==> r.value.report.recommendations == RecommendationsFor(page.value.imageSize, page.value.scriptSize)
  {
    if page.Err? { return Err(page.error); }
    var p := page.value;
    var pageSize := PageSize(p);
    var co2PerPage := Co2PerPage(pageSize + p.imageSize + p.scriptSize);
    var annualEmissions := co2PerPage * 120000.0 / 1000.0;
    var cleanerThan := CalculatePercentileRank(co2PerPage);
    var recommendations := GenerateRecommendations(pageSize, p.imageSize, p.scriptSize);
    r := Ok(CarbonResult(CarbonScore(co2PerPage),
      CarbonReport(pageSize + p.imageSize + p.scriptSize, co2PerPage, annualEmissions, cleanerThan, recommendations)));
  }
}
