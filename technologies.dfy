/** The technology detector: after the fetch, a CMS check on the generator meta tag
    and a React check on the raw HTML, pushed onto the result step by step. */
module Technologies {
  import opened Wrappers
  import opened Strings

  datatype Technology = Technology(name: string, category: string, confidence: real)
  datatype AnalyzerResult = AnalyzerResult(technologies: seq<Technology>, errors: seq<string>, success: bool)

  /** The HTTP client's `{ data?, error?, status? }`. */
  datatype RequestResult = RequestResult(data: Option<string>, error: Option<string>, status: Option<int>)

  /** What parsing the page yields for `meta[name="generator"]`: `cheerio.load` throws,
      the attribute lookup throws, or the `content` attribute (absent or a string). */
  datatype GeneratorLookup = LoadThrows | LookupThrows | Generator(content: Option<string>)

  /** `response.error || response.status >= 400`. */
  predicate FetchFailed(response: RequestResult) {
    Truthy(response.error) || (response.status.Some? && response.status.value >= 400)
  }

  /** `${response.error || response.status}`. */
  function FailureText(response: RequestResult): string {
    if Truthy(response.error) then response.error.value
    else if response.status.Some? then IntToString(response.status.value)
    else "undefined"
  }

  /** `!html || (!html.includes('<!DOCTYPE') && !html.includes('<html'))`. */
  predicate InvalidHtml(data: Option<string>) {
    !Truthy(data) || (!Contains(data.value, "<!DOCTYPE") && !Contains(data.value, "<html"))
  }

  const REACT := Technology("React", "Frontend Framework", 0.9)

  /** The technologies found in a valid page whose generator lookup returned `generator`. */
  function Detected(generator: Option<string>, html: string): (r: seq<Technology>)
    ensures |r| <= 2
    ensures Truthy(generator) ==> |r| >= 1 && r[0] == Technology(generator.value, "CMS", 1.0)
    ensures REACT in r <==> Contains(html, "react")
    ensures |r| == (if Truthy(generator) then 1 else 0) + (if Contains(html, "react") then 1 else 0)
  {
    (if Truthy(generator) then [Technology(generator.value, "CMS", 1.0)] else []) +
    (if Contains(html, "react") then [REACT] else [])
  }

  /** `analyzeTechnologies(url)`, given the fetch result and the generator lookup. */
  method AnalyzeTechnologies(response: RequestResult, generator: GeneratorLookup) returns (result: AnalyzerResult)
    ensures result.success <==> |result.technologies| > 0
    ensures FetchFailed(response) ==>
              result == AnalyzerResult([], ["Failed to fetch site: " + FailureText(response)], false)
    ensures !FetchFailed(response) && InvalidHtml(response.data) ==>
              result == AnalyzerResult([], ["Invalid HTML response received"], false)
    ensures !FetchFailed(response) && !InvalidHtml(response.data) && generator.LoadThrows? ==>
              result == AnalyzerResult([], ["Technology analysis failed unexpectedly"], false)
    ensures !FetchFailed(response) && !InvalidHtml(response.data) && !generator.LoadThrows? ==>
              result.technologies == Detected(if generator.Generator? then generator.content else None, response.data.value) &&
              result.errors == (if generator.LookupThrows? then ["CMS detection failed"] else [])
  {
    result := AnalyzerResult([], [], false);
    if FetchFailed(response) {
      result := result.(errors := result.errors + ["Failed to fetch site: " + FailureText(response)]);
      return;
    }
    var html := response.data;
    if InvalidHtml(html) {
      result := result.(errors := result.errors + ["Invalid HTML response received"]);
      return;
    }
    if generator.LoadThrows? {
      result := result.(errors := result.errors + ["Technology analysis failed unexpectedly"]);
      return;
    }
    if generator.LookupThrows? {
      result := result.(errors := result.errors + ["CMS detection failed"]);
    } else if Truthy(generator.content) {
      result := result.(technologies := result.technologies + [Technology(generator.content.value, "CMS", 1.0)]);
    }
    // `html.includes` on a non-empty string cannot throw, so the framework check's
    // own catch branch is unreachable here.
    if Contains(html.value, "react") {
      result := result.(technologies := result.technologies + [REACT]);
    }
    result := result.(success := |result.technologies| > 0);
  }
}
