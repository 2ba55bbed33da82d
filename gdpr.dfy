/** The GDPR compliance analyzer: cookie-banner and privacy-policy checks, per-form
    consent checks, tracker detection, HTTPS and header checks, recommendations and a
    deduction-based score. The page's DOM queries arrive as extracted texts. */
module Gdpr {
  import opened Wrappers
  import opened Strings
  import opened Rounding

  datatype CookieConsent = CookieConsent(exists_: bool, compliant: bool, issues: seq<string>)
  datatype PrivacyPolicy = PrivacyPolicy(exists_: bool, issues: seq<string>)
  datatype FormReport = FormReport(purpose: string, fields: seq<string>, hasConsent: bool, issues: seq<string>)
  datatype Tracker = Tracker(name: string, purpose: string, compliant: bool)
  datatype DataCollection = DataCollection(forms: seq<FormReport>, trackers: seq<Tracker>)
  datatype DataProtection = DataProtection(encryption: bool, secureTransfer: bool, issues: seq<string>)
  datatype Priority = Critical | High | Medium | Low
  datatype Recommendation = Recommendation(priority: Priority, description: string, action: string)
  datatype GdprReport = GdprReport(cookieConsent: CookieConsent, privacyPolicy: PrivacyPolicy,
                                   dataCollection: DataCollection, dataProtection: DataProtection,
                                   recommendations: seq<Recommendation>)
  datatype GdprResult = GdprResult(score: int, report: GdprReport)

  /** One `<form>`: each input's `name` attribute, the text around each checkbox, and
      the form's own text. */
  datatype FormFacts = FormFacts(inputNames: seq<Option<string>>, checkboxTexts: seq<string>, text: string)

  /** What the page yields: every element's text, the whole text, every link's text,
      the privacy-policy page's text (`None` when it cannot be fetched), the forms,
      every script `src`, and the headers of the second request (`None` when it fails). */
  datatype GdprPage = GdprPage(elementTexts: seq<string>, allText: string, linkTexts: seq<string>,
                               policyText: Option<string>, forms: seq<FormFacts>, scriptSrcs: seq<string>,
                               headers: Option<map<string, string>>)

  const COOKIE_KEYWORDS := ["cookie", "cookies", "gdpr", "consent", "accept", "privacy"]
  const REQUIRED_POLICY_ELEMENTS := ["personal data", "data protection", "rights", "consent", "processing"]
  const PERSONAL_DATA_FIELDS := ["name", "email", "phone", "address", "birthday", "passport", "ssn"]

  const NO_BANNER := "No cookie consent banner found"
  const NO_REJECT := "No option to reject non-essential cookies"
  const NO_PREFERENCES := "No granular cookie preferences available"
  const FORM_CONSENT_ISSUE := "Form collecting personal data without explicit consent"

  predicate BannerExists(elementTexts: seq<string>) {
    exists i :: 0 <= i < |elementTexts| && ContainsAny(ToLower(elementTexts[i]), COOKIE_KEYWORDS)
  }

  /** What `analyzeCookieConsent` reports: a missing banner, or the reject and
      preferences options the page text lacks; compliant iff no issue. */
  function CookieConsentOf(elementTexts: seq<string>, allText: string): CookieConsent {
    if !BannerExists(elementTexts) then CookieConsent(false, false, [NO_BANNER])
    else
      var issues := (if Contains(ToLower(allText), "reject") then [] else [NO_REJECT]) +
                    (if Contains(ToLower(allText), "preferences") then [] else [NO_PREFERENCES]);
      CookieConsent(true, issues == [], issues)
  }

  /** `analyzeCookieConsent`. */
  method AnalyzeCookieConsent(elementTexts: seq<string>, allText: string) returns (c: CookieConsent)
    ensures c == CookieConsentOf(elementTexts, allText)
    ensures c.exists_ == BannerExists(elementTexts)
    ensures c.compliant <==> c.issues == []
    ensures !c.exists_ ==> c.issues == [NO_BANNER]
    ensures c.exists_ ==>
              c.issues == (if Contains(ToLower(allText), "reject") then [] else [NO_REJECT]) +
                          (if Contains(ToLower(allText), "preferences") then [] else [NO_PREFERENCES])
  {
    var bannerExists := BannerExists(elementTexts);
    var issues: seq<string> := [];
    var isCompliant := true;
    if !bannerExists {
      issues := issues + [NO_BANNER];
      isCompliant := false;
    } else {
      var hasRejectOption := Contains(ToLower(allText), "reject");
      var hasPreferences := Contains(ToLower(allText), "preferences");
      if !hasRejectOption {
        issues := issues + [NO_REJECT];
        isCompliant := false;
      }
      if !hasPreferences {
        issues := issues + [NO_PREFERENCES];
        isCompliant := false;
      }
    }
    c := CookieConsent(bannerExists, isCompliant, issues);
  }

  const MISSING_TOPIC_PREFIX := "Privacy policy missing information about: "

  /** The issue raised for one required topic; the topic can be read back from it. */
  function MissingTopicIssue(topic: string): (m: string)
    ensures |m| == |MISSING_TOPIC_PREFIX| + |topic| && m[|MISSING_TOPIC_PREFIX|..] == topic
  {
    MISSING_TOPIC_PREFIX + topic
  }

  /** The required topics the policy text does not mention, in list order: exactly one
      issue per topic the lower-cased text lacks. */
  function MissingTopics(text: string, topics: seq<string>): (r: seq<string>)
    ensures |r| <= |topics|
    ensures forall i :: 0 <= i < |r| ==> exists j :: 0 <= j < |topics| && r[i] == MissingTopicIssue(topics[j])
    ensures forall j :: 0 <= j < |topics| ==> (MissingTopicIssue(topics[j]) in r <==> !Contains(ToLower(text), topics[j]))
    decreases |topics|
  {
    if |topics| == 0 then []
    else
      (if Contains(ToLower(text), topics[0]) then [] else [MissingTopicIssue(topics[0])]) +
      MissingTopics(text, topics[1..])
  }

  /** `analyzePrivacyPolicy` without the last-updated date. */
  function AnalyzePrivacyPolicy(linkTexts: seq<string>, policyText: Option<string>): (r: PrivacyPolicy)
    ensures r.exists_ <==> exists i :: 0 <= i < |linkTexts| && Contains(ToLower(linkTexts[i]), "privacy")
    ensures !r.exists_ ==> r.issues == ["No privacy policy link found"]
    ensures r.exists_ && policyText.None? ==> r.issues == ["Unable to analyze privacy policy content"]
    ensures r.exists_ && policyText.Some? ==> |r.issues| <= 5
    ensures r.exists_ && policyText.Some? ==>
              forall j :: 0 <= j < |REQUIRED_POLICY_ELEMENTS| ==>
                (MissingTopicIssue(REQUIRED_POLICY_ELEMENTS[j]) in r.issues <==>
                 !Contains(ToLower(policyText.value), REQUIRED_POLICY_ELEMENTS[j]))
  {
    var exists_ := exists i :: 0 <= i < |linkTexts| && Contains(ToLower(linkTexts[i]), "privacy");
    if !exists_ then PrivacyPolicy(false, ["No privacy policy link found"])
    else if policyText.None? then PrivacyPolicy(true, ["Unable to analyze privacy policy content"])
    else PrivacyPolicy(true, MissingTopics(policyText.value, REQUIRED_POLICY_ELEMENTS))
  }

  /** `isPersonalData`. */
  predicate IsPersonalData(fieldName: string) {
    ContainsAny(ToLower(fieldName), PERSONAL_DATA_FIELDS)
  }

  /** `detectFormPurpose`: the first keyword found, in priority order. */
  function DetectFormPurpose(formText: string): (r: string)
    ensures Contains(ToLower(formText), "newsletter") ==> r == "Newsletter Subscription"
    ensures !Contains(ToLower(formText), "newsletter") && Contains(ToLower(formText), "contact") ==> r == "Contact Form"
    ensures (!Contains(ToLower(formText), "newsletter") && !Contains(ToLower(formText), "contact") &&
             Contains(ToLower(formText), "register")) ==> r == "Registration"
    ensures (!Contains(ToLower(formText), "newsletter") && !Contains(ToLower(formText), "contact") &&
             !Contains(ToLower(formText), "register") && Contains(ToLower(formText), "login")) ==> r == "Authentication"
    ensures r == "Unknown" <==>
              !Contains(ToLower(formText), "newsletter") && !Contains(ToLower(formText), "contact") &&
              !Contains(ToLower(formText), "register") && !Contains(ToLower(formText), "login")
    ensures r in ["Newsletter Subscription", "Contact Form", "Registration", "Authentication", "Unknown"]
  {
    var text := ToLower(formText);
    if Contains(text, "newsletter") then "Newsletter Subscription"
    else if Contains(text, "contact") then "Contact Form"
    else if Contains(text, "register") then "Registration"
    else if Contains(text, "login") then "Authentication"
    else "Unknown"
  }

  /** Cheerio's `.map(...).get()` drops the inputs with no `name` attribute. */
  function Names(inputNames: seq<Option<string>>): (r: seq<string>)
    ensures |r| <= |inputNames|
    ensures forall i :: 0 <= i < |inputNames| && inputNames[i].Some? ==> inputNames[i].value in r
    ensures forall f :: f in r ==> Some(f) in inputNames
    decreases |inputNames|
  {
    if |inputNames| == 0 then []
    else (if inputNames[0].Some? then [inputNames[0].value] else []) + Names(inputNames[1..])
  }

  predicate HasConsentCheckbox(checkboxTexts: seq<string>) {
    exists i :: 0 <= i < |checkboxTexts| &&
      (Contains(ToLower(checkboxTexts[i]), "consent") || Contains(ToLower(checkboxTexts[i]), "agree"))
  }

  /** One form of `analyzeDataCollection`. */
  function AnalyzeForm(f: FormFacts): (r: FormReport)
    ensures r.fields == Names(f.inputNames) && r.hasConsent == HasConsentCheckbox(f.checkboxTexts)
    ensures r.purpose == DetectFormPurpose(f.text)
    ensures r.issues == [FORM_CONSENT_ISSUE] <==>
              (exists i :: 0 <= i < |f.inputNames| && f.inputNames[i].Some? && IsPersonalData(f.inputNames[i].value)) &&
              !HasConsentCheckbox(f.checkboxTexts)
    ensures r.issues == [] || r.issues == [FORM_CONSENT_ISSUE]
  {
    var fields := Names(f.inputNames);
    var hasConsent := HasConsentCheckbox(f.checkboxTexts);
    var personal := exists j :: 0 <= j < |fields| && IsPersonalData(fields[j]);
    assert personal <==> exists i :: 0 <= i < |f.inputNames| && f.inputNames[i].Some? && IsPersonalData(f.inputNames[i].value) by {
      if personal {
        var j :| 0 <= j < |fields| && IsPersonalData(fields[j]);
        assert fields[j] in fields;
        var i :| 0 <= i < |f.inputNames| && f.inputNames[i] == Some(fields[j]);
      }
      if exists i :: 0 <= i < |f.inputNames| && f.inputNames[i].Some? && IsPersonalData(f.inputNames[i].value) {
        var i :| 0 <= i < |f.inputNames| && f.inputNames[i].Some? && IsPersonalData(f.inputNames[i].value);
        assert f.inputNames[i].value in fields;
      }
    }
    FormReport(DetectFormPurpose(f.text), fields, hasConsent,
               if personal && !hasConsent then [FORM_CONSENT_ISSUE] else [])
  }

  function AnalyzeForms(forms: seq<FormFacts>): (r: seq<FormReport>)
    ensures |r| == |forms| && forall i :: 0 <= i < |forms| ==> r[i] == AnalyzeForm(forms[i])
  {
    seq(|forms|, i requires 0 <= i < |forms| => AnalyzeForm(forms[i]))
  }

  predicate AnyContains(srcs: seq<string>, p: string) {
    exists i :: 0 <= i < |srcs| && Contains(srcs[i], p)
  }

  /** `detectTrackers`: Google Analytics, then the Facebook pixel. */
  function DetectTrackers(scriptSrcs: seq<string>): (r: seq<Tracker>)
    ensures |r| <= 2
    ensures forall i :: 0 <= i < |r| ==> !r[i].compliant
    ensures Tracker("Google Analytics", "Analytics", false) in r <==> AnyContains(scriptSrcs, "google-analytics.com")
    ensures Tracker("Facebook Pixel", "Marketing", false) in r <==> AnyContains(scriptSrcs, "facebook")
  {
    (if AnyContains(scriptSrcs, "google-analytics.com") then [Tracker("Google Analytics", "Analytics", false)] else []) +
    (if AnyContains(scriptSrcs, "facebook") then [Tracker("Facebook Pixel", "Marketing", false)] else [])
  }

  predicate HeaderSet(h: map<string, string>, name: string) {
    name in h && h[name] != ""
  }

  /** `analyzeDataProtection`; `headers` is `None` when its request fails. */
  function AnalyzeDataProtection(url: string, headers: Option<map<string, string>>): (r: DataProtection)
    ensures headers.None? ==> r == DataProtection(false, false, ["Unable to analyze security headers"])
    ensures headers.Some? ==> r.secureTransfer == StartsWith(url, "https") &&
                              r.encryption == HeaderSet(headers.value, "content-security-policy")
    ensures headers.Some? ==>
              (r.issues == [] <==>
                 StartsWith(url, "https") && HeaderSet(headers.value, "strict-transport-security") &&
                 HeaderSet(headers.value, "x-content-type-options") && HeaderSet(headers.value, "x-frame-options"))
  {
    match headers
    case None => DataProtection(false, false, ["Unable to analyze security headers"])
    case Some(h) =>
      DataProtection(HeaderSet(h, "content-security-policy"), StartsWith(url, "https"),
        (if StartsWith(url, "https") then [] else ["Website not using HTTPS"]) +
        (if HeaderSet(h, "strict-transport-security") then [] else ["HSTS not enabled"]) +
        (if HeaderSet(h, "x-content-type-options") then [] else ["X-Content-Type-Options header missing"]) +
        (if HeaderSet(h, "x-frame-options") then [] else ["X-Frame-Options header missing"]))
  }

  const BANNER_RECOMMENDATION := Recommendation(Critical, "Missing cookie consent mechanism",
                                                "Implement a GDPR-compliant cookie consent banner")
  const POLICY_RECOMMENDATION := Recommendation(Critical, "Missing privacy policy",
                                                "Create and publish a GDPR-compliant privacy policy")

  /** The recommendations for a missing banner and a missing policy, banner first. */
  function RecommendationsFor(cc: CookieConsent, pp: PrivacyPolicy): seq<Recommendation> {
    (if cc.exists_ then [] else [BANNER_RECOMMENDATION]) + (if pp.exists_ then [] else [POLICY_RECOMMENDATION])
  }

  /** `generateGDPRRecommendations`: at most the two critical entries, banner first. */
  method GenerateRecommendations(cc: CookieConsent, pp: PrivacyPolicy, dc: DataCollection, dp: DataProtection)
    returns (recs: seq<Recommendation>)
    ensures recs == RecommendationsFor(cc, pp)
    ensures BANNER_RECOMMENDATION in recs <==> !cc.exists_
    ensures POLICY_RECOMMENDATION in recs <==> !pp.exists_
    ensures |recs| <= 2 && forall i :: 0 <= i < |recs| ==> recs[i].priority == Critical
  {
    recs := [];
    if !cc.exists_ {
      recs := recs + [BANNER_RECOMMENDATION];
    }
    if !pp.exists_ {
      recs := recs + [POLICY_RECOMMENDATION];
    }
  }

  /** The number of forms with at least one issue. */
  function FormsWithIssues(forms: seq<FormReport>): (n: nat)
    ensures n <= |forms|
    decreases |forms|
  {
    if |forms| == 0 then 0 else FormsWithIssues(forms[..|forms| - 1]) + (if |forms[|forms| - 1].issues| > 0 then 1 else 0)
  }

  /** Forms without issues are not counted. */
  lemma {:induction false} CleanFormsCountZero(forms: seq<FormReport>)
    requires forall i :: 0 <= i < |forms| ==> forms[i].issues == []
    ensures FormsWithIssues(forms) == 0
    decreases |forms|
  {
    if |forms| > 0 {
      CleanFormsCountZero(forms[..|forms| - 1]);
    }
  }

  /** The fixed deductions: missing banner 30, non-compliant banner 20, missing policy
      30, no HTTPS 20, and 5 per cookie, policy and protection issue. */
  function FixedDeductions(cc: CookieConsent, pp: PrivacyPolicy, dp: DataProtection): nat {
    (if cc.exists_ then 0 else 30) + (if cc.compliant then 0 else 20) +
    (if pp.exists_ then 0 else 30) + (if dp.secureTransfer then 0 else 20) +
    5 * |cc.issues| + 5 * |pp.issues| + 5 * |dp.issues|
  }

  /** The score before clamping: 10 more per form with an issue. */
  function RawScore(cc: CookieConsent, pp: PrivacyPolicy, dc: DataCollection, dp: DataProtection): int {
    100 - FixedDeductions(cc, pp, dp) - 10 * FormsWithIssues(dc.forms)
  }

  /** The first part of `calculateGDPRScore`: 100 less the fixed deductions. */
  method FixedScore(cc: CookieConsent, pp: PrivacyPolicy, dp: DataProtection) returns (score: int)
    ensures score == 100 - FixedDeductions(cc, pp, dp)
  {
    score := 100;
    if !cc.exists_ { score := score - 30; }
    if !cc.compliant { score := score - 20; }
    if !pp.exists_ { score := score - 30; }
    if !dp.secureTransfer { score := score - 20; }
    score := score - |cc.issues| * 5;
    score := score - |pp.issues| * 5;
    score := score - |dp.issues| * 5;
  }

  /** `calculateGDPRScore`. */
  method CalculateGdprScore(cc: CookieConsent, pp: PrivacyPolicy, dc: DataCollection, dp: DataProtection)
    returns (score: int)
    ensures score == Clamp(RawScore(cc, pp, dc, dp))
    ensures 0 <= score <= 100
  {
    score := FixedScore(cc, pp, dp);
    var i := 0;
    while i < |dc.forms|
      invariant 0 <= i <= |dc.forms|
      invariant score == 100 - FixedDeductions(cc, pp, dp) - 10 * FormsWithIssues(dc.forms[..i])
    {
      assert dc.forms[..i + 1][..i] == dc.forms[..i];
      if |dc.forms[i].issues| > 0 { score := score - 10; }
      i := i + 1;
    }
    assert dc.forms[..i] == dc.forms;
    score := if score < 0 then 0 else if score > 100 then 100 else score;
  }

  /** Trackers never affect the score. */
  lemma TrackersDoNotCount(cc: CookieConsent, pp: PrivacyPolicy, dc: DataCollection, dp: DataProtection, t: seq<Tracker>)
    ensures RawScore(cc, pp, dc.(trackers := t), dp) == RawScore(cc, pp, dc, dp)
  {
  }

  /** A further form costs 10 points if it has an issue and nothing otherwise. */
  lemma FormWithIssueCostsTen(cc: CookieConsent, pp: PrivacyPolicy, dc: DataCollection, dp: DataProtection, f: FormReport)
    ensures RawScore(cc, pp, dc.(forms := dc.forms + [f]), dp) ==
            RawScore(cc, pp, dc, dp) - (if |f.issues| > 0 then 10 else 0)
  {
    assert (dc.forms + [f])[..|dc.forms|] == dc.forms;
  }

  /** A page with no banner loses 55 on cookies alone: 30 for the banner, 20 for the
      resulting non-compliance and 5 for its issue. */
  lemma MissingBannerCosts55(cc: CookieConsent, pp: PrivacyPolicy, dp: DataProtection)
    requires cc == CookieConsent(false, false, [NO_BANNER])
    ensures FixedDeductions(cc, pp, dp) == 55 + FixedDeductions(CookieConsent(true, true, []), pp, dp)
  {
  }

  /** A fully compliant page keeps 100. */
  lemma CleanPageScores100(cc: CookieConsent, pp: PrivacyPolicy, dc: DataCollection, dp: DataProtection)
    requires cc.exists_ && cc.compliant && cc.issues == [] && pp.exists_ && pp.issues == []
    requires dp.secureTransfer && dp.issues == []
    requires forall i :: 0 <= i < |dc.forms| ==> dc.forms[i].issues == []
    ensures Clamp(RawScore(cc, pp, dc, dp)) == 100
  {
    CleanFormsCountZero(dc.forms);
  }

  /** `analyzeGDPRCompliance(url)`: a failed page fetch is rethrown. */
  method AnalyzeGdprCompliance(url: string, page: Result<GdprPage>) returns (r: Result<GdprResult>)
    ensures page.Err? ==> r == Err(page.error)
    ensures page.Ok? ==> r.Ok? && 0 <= r.value.score <= 100
    ensures page.Ok? ==>
              var rep := r.value.report;
              rep.privacyPolicy == AnalyzePrivacyPolicy(page.value.linkTexts, page.value.policyText) &&
              rep.dataCollection == DataCollection(AnalyzeForms(page.value.forms), DetectTrackers(page.value.scriptSrcs)) &&
              rep.dataProtection == AnalyzeDataProtection(url, page.value.headers) &&
              rep.cookieConsent == CookieConsentOf(page.value.elementTexts, page.value.allText) &&
              rep.recommendations == RecommendationsFor(rep.cookieConsent, rep.privacyPolicy) &&
              r.value.score == Clamp(RawScore(rep.cookieConsent, rep.privacyPolicy, rep.dataCollection, rep.dataProtection))
  {
    if page.Err? { return Err(page.error); }
    var p := page.value;
    var cookieConsent := AnalyzeCookieConsent(p.elementTexts, p.allText);
    var privacyPolicy := AnalyzePrivacyPolicy(p.linkTexts, p.policyText);
    var dataCollection := DataCollection(AnalyzeForms(p.forms), DetectTrackers(p.scriptSrcs));
    var dataProtection := AnalyzeDataProtection(url, p.headers);
    var recommendations := GenerateRecommendations(cookieConsent, privacyPolicy, dataCollection, dataProtection);
    var score := CalculateGdprScore(cookieConsent, privacyPolicy, dataCollection, dataProtection);
    r := Ok(GdprResult(score, GdprReport(cookieConsent, privacyPolicy, dataCollection, dataProtection, recommendations)));
  }
}
