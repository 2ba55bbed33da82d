/** The PWA readiness analyzer: manifest and service-worker checks, installability,
    cache strategy and load-time performance, and a points-based score. */
module Pwa {
  import opened Wrappers
  import opened Strings

  datatype Icon = Icon(sizes: Option<string>)

  /** The manifest fields the analyzer reads; a field is set when it is truthy. */
  datatype Manifest = Manifest(name: Option<string>, shortName: Option<string>, icons: Option<seq<Icon>>,
                               startUrl: Option<string>, display: Option<string>,
                               backgroundColor: Option<string>, themeColor: Option<string>)

  datatype ServiceWorker = ServiceWorker(exists_: bool, issues: seq<string>, capabilities: seq<string>)
  datatype Installability = Installability(canBeInstalled: bool, missingRequirements: seq<string>)
  datatype Performance = Performance(offlineCapable: bool, cacheStrategy: string, loadTime: int)
  /** `properties: manifest || {}`: `None` stands for the empty object. */
  datatype ManifestReport = ManifestReport(exists_: bool, issues: seq<string>, properties: Option<Manifest>)
  datatype PwaReport = PwaReport(manifest: ManifestReport, serviceWorker: ServiceWorker,
                                 installability: Installability, performance: Performance)
  datatype PwaResult = PwaResult(score: int, report: PwaReport)

  /** What the fetches yield: the manifest (`None` when there is no manifest link or its
      fetch fails), the text of every `<script>`, the `/sw.js` body (`None` when it
      cannot be fetched), and the timed request's headers and load time (`None` when
      it fails). */
  datatype PwaPage = PwaPage(manifest: Option<Manifest>, scriptTexts: seq<string>, swContent: Option<string>,
                             timed: Option<(map<string, string>, int)>)

  /** `manifest.icons && manifest.icons.length`. */
  predicate HasIcons(m: Manifest) {
    m.icons.Some? && |m.icons.value| > 0
  }

  predicate HasNameOrShortName(m: Manifest) {
    Truthy(m.name) || Truthy(m.shortName)
  }

  predicate SuitableIcon(icon: Icon) {
    icon.sizes == Some("192x192") || icon.sizes == Some("512x512")
  }

  /** The installability requirements a manifest misses, in check order. */
  function ManifestRequirements(m: Manifest): seq<string> {
    (if HasNameOrShortName(m) then [] else ["Manifest name or short_name"]) +
    (if HasIcons(m) then [] else ["Suitable icons in manifest"]) +
    (if Truthy(m.startUrl) then [] else ["start_url in manifest"]) +
    (if Truthy(m.display) then [] else ["display mode in manifest"])
  }

  /** What `checkInstallability` reports: every missing requirement, installable iff none. */
  function InstallabilityOf(manifest: Option<Manifest>, sw: ServiceWorker): Installability {
    var missing := (if manifest.None? then ["Web App Manifest"] else ManifestRequirements(manifest.value)) +
                   (if sw.exists_ then [] else ["Service Worker"]);
    Installability(missing == [], missing)
  }

  /** `checkInstallability`. */
  method CheckInstallability(manifest: Option<Manifest>, sw: ServiceWorker) returns (r: Installability)
    ensures r.canBeInstalled <==> r.missingRequirements == []
    ensures r.missingRequirements ==
              (if manifest.None? then ["Web App Manifest"] else ManifestRequirements(manifest.value)) +
              (if sw.exists_ then [] else ["Service Worker"])
    ensures r == InstallabilityOf(manifest, sw)
  {
    var missing: seq<string> := [];
    if manifest.None? {
      missing := missing + ["Web App Manifest"];
    } else {
      var m := manifest.value;
      if !Truthy(m.name) && !Truthy(m.shortName) {
        missing := missing + ["Manifest name or short_name"];
      }
      assert missing == (if HasNameOrShortName(m) then [] else ["Manifest name or short_name"]);
      ghost var named := missing;
      if !HasIcons(m) {
        missing := missing + ["Suitable icons in manifest"];
      }
      assert missing == named + (if HasIcons(m) then [] else ["Suitable icons in manifest"]);
      ghost var iconed := missing;
      if !Truthy(m.startUrl) {
        missing := missing + ["start_url in manifest"];
      }
      assert missing == iconed + (if Truthy(m.startUrl) then [] else ["start_url in manifest"]);
      ghost var started := missing;
      if !Truthy(m.display) {
        missing := missing + ["display mode in manifest"];
      }
      assert missing == started + (if Truthy(m.display) then [] else ["display mode in manifest"]);
    }
    assert missing == (if manifest.None? then ["Web App Manifest"] else ManifestRequirements(manifest.value));
    if !sw.exists_ {
      missing := missing + ["Service Worker"];
    }
    r := Installability(|missing| == 0, missing);
  }

  /** A manifest with everything set and a registered worker can be installed. */
  lemma CompleteManifestIsEnough(m: Manifest)
    requires Truthy(m.name) && HasIcons(m) && Truthy(m.startUrl) && Truthy(m.display)
    ensures ManifestRequirements(m) == []
  {
  }

  const MISSING_SUITABLE_ICONS := "Missing suitable icons (192x192 and 512x512 recommended)"

  predicate HasSuitableIcon(m: Manifest)
    requires HasIcons(m)
  {
    exists i :: 0 <= i < |m.icons.value| && SuitableIcon(m.icons.value[i])
  }

  /** The issues `getManifestIssues` lists, in check order. */
  function ManifestIssues(manifest: Option<Manifest>): seq<string> {
    match manifest
    case None => ["No web app manifest found"]
    case Some(m) =>
      (if HasNameOrShortName(m) then [] else ["Missing name or short_name"]) +
      (if !HasIcons(m) then ["Missing icons"] else if HasSuitableIcon(m) then [] else [MISSING_SUITABLE_ICONS]) +
      (if Truthy(m.startUrl) then [] else ["Missing start_url"]) +
      (if Truthy(m.display) then [] else ["Missing display mode"]) +
      (if Truthy(m.backgroundColor) then [] else ["Missing background_color"]) +
      (if Truthy(m.themeColor) then [] else ["Missing theme_color"])
  }

  /** The icon issues: "Missing icons" iff there are none, the suitable-icon issue iff
      there are some and none of them is 192x192 or 512x512. */
  lemma IconIssues(m: Manifest)
    ensures "Missing icons" in ManifestIssues(Some(m)) <==> !HasIcons(m)
    ensures MISSING_SUITABLE_ICONS in ManifestIssues(Some(m)) <==>
              HasIcons(m) && forall i :: 0 <= i < |m.icons.value| ==> !SuitableIcon(m.icons.value[i])
  {
    var name := if HasNameOrShortName(m) then [] else ["Missing name or short_name"];
    var icons := if !HasIcons(m) then ["Missing icons"] else if HasSuitableIcon(m) then [] else [MISSING_SUITABLE_ICONS];
    var start := if Truthy(m.startUrl) then [] else ["Missing start_url"];
    var display := if Truthy(m.display) then [] else ["Missing display mode"];
    var background := if Truthy(m.backgroundColor) then [] else ["Missing background_color"];
    var theme := if Truthy(m.themeColor) then [] else ["Missing theme_color"];
    assert ManifestIssues(Some(m)) == name + icons + start + display + background + theme;
  }

  /** At most one issue per check, and none iff the manifest has a name, a suitable
      icon, a start url, a display mode and both colours. */
  lemma ManifestIssuesBounds(m: Manifest)
    ensures |ManifestIssues(Some(m))| <= 6
    ensures ManifestIssues(Some(m)) == [] <==>
              HasNameOrShortName(m) && HasIcons(m) && HasSuitableIcon(m) &&
              Truthy(m.startUrl) && Truthy(m.display) && Truthy(m.backgroundColor) && Truthy(m.themeColor)
  {
  }

  /** `getManifestIssues`. */
  method GetManifestIssues(manifest: Option<Manifest>) returns (issues: seq<string>)
    ensures issues == ManifestIssues(manifest)
    ensures manifest.None? ==> issues == ["No web app manifest found"]
  {
    issues := [];
    if manifest.None? {
      issues := issues + ["No web app manifest found"];
      return;
    }
    var m := manifest.value;
    if !Truthy(m.name) && !Truthy(m.shortName) {
      issues := issues + ["Missing name or short_name"];
    }
    assert issues == (if HasNameOrShortName(m) then [] else ["Missing name or short_name"]);
    ghost var named := issues;
    if !HasIcons(m) {
      issues := issues + ["Missing icons"];
    } else {
      var hasSuitableIcon := HasSuitableIcon(m);
      if !hasSuitableIcon {
        issues := issues + [MISSING_SUITABLE_ICONS];
      }
    }
    assert issues == named +
      (if !HasIcons(m) then ["Missing icons"] else if HasSuitableIcon(m) then [] else [MISSING_SUITABLE_ICONS]);
    ghost var iconed := issues;
    if !Truthy(m.startUrl) {
      issues := issues + ["Missing start_url"];
    }
    assert issues == iconed + (if Truthy(m.startUrl) then [] else ["Missing start_url"]);
    ghost var started := issues;
    if !Truthy(m.display) {
      issues := issues + ["Missing display mode"];
    }
    assert issues == started + (if Truthy(m.display) then [] else ["Missing display mode"]);
    ghost var displayed := issues;
    if !Truthy(m.backgroundColor) {
      issues := issues + ["Missing background_color"];
    }
    assert issues == displayed + (if Truthy(m.backgroundColor) then [] else ["Missing background_color"]);
    ghost var coloured := issues;
    if !Truthy(m.themeColor) {
      issues := issues + ["Missing theme_color"];
    }
    assert issues == coloured + (if Truthy(m.themeColor) then [] else ["Missing theme_color"]);
  }

  /** `detectCacheStrategy`: no-cache / no-store, then immutable, then max-age. */
  function DetectCacheStrategy(headers: map<string, string>): (r: string)
    ensures var cc := if "cache-control" in headers then headers["cache-control"] else "";
            (Contains(cc, "no-cache") || Contains(cc, "no-store") ==> r == "no-cache") &&
            (r == "default" <==> !Contains(cc, "no-cache") && !Contains(cc, "no-store") &&
                                 !Contains(cc, "immutable") && !Contains(cc, "max-age"))
    ensures r in ["no-cache", "immutable", "time-based", "default"]
    ensures var cc := if "cache-control" in headers then headers["cache-control"] else "";
            !Contains(cc, "no-cache") && !Contains(cc, "no-store") && Contains(cc, "immutable") ==> r == "immutable"
    ensures var cc := if "cache-control" in headers then headers["cache-control"] else "";
            (!Contains(cc, "no-cache") && !Contains(cc, "no-store") && !Contains(cc, "immutable") &&
             Contains(cc, "max-age")) ==> r == "time-based"
  {
    var cacheControl := if "cache-control" in headers then headers["cache-control"] else "";
    if Contains(cacheControl, "no-cache") || Contains(cacheControl, "no-store") then "no-cache"
    else if Contains(cacheControl, "immutable") then "immutable"
    else if Contains(cacheControl, "max-age") then "time-based"
    else "default"
  }

  /** `checkPWAPerformance`; the load time is the caller-measured request duration. */
  function CheckPwaPerformance(timed: Option<(map<string, string>, int)>): (r: Performance)
    ensures timed.None? ==> r == Performance(false, "none", 0)
    ensures timed.Some? ==> r.offlineCapable && r.loadTime == timed.value.1
  {
    match timed
    case None => Performance(false, "none", 0)
    case Some((headers, loadTime)) => Performance(true, DetectCacheStrategy(headers), loadTime)
  }

  /** The keyword checks on `/sw.js`, in order. */
  function Capabilities(swContent: string): (r: seq<string>)
    ensures |r| <= 4
    ensures "Static Asset Caching" in r <==> Contains(swContent, "cache.addAll")
    ensures "Network Interception" in r <==> Contains(swContent, "fetch")
    ensures "Push Notifications" in r <==> Contains(swContent, "push")
    ensures "Background Sync" in r <==> Contains(swContent, "sync")
  {
    (if Contains(swContent, "cache.addAll") then ["Static Asset Caching"] else []) +
    (if Contains(swContent, "fetch") then ["Network Interception"] else []) +
    (if Contains(swContent, "push") then ["Push Notifications"] else []) +
    (if Contains(swContent, "sync") then ["Background Sync"] else [])
  }

  predicate RegistersWorker(scriptTexts: seq<string>) {
    exists i :: 0 <= i < |scriptTexts| &&
      (Contains(scriptTexts[i], "serviceWorker") || Contains(scriptTexts[i], "navigator.serviceWorker"))
  }

  /** What `checkServiceWorker` reports: the registration, then the capabilities found
      in `/sw.js` when it could be fetched. */
  function WorkerReport(scriptTexts: seq<string>, swContent: Option<string>): ServiceWorker {
    if !RegistersWorker(scriptTexts) then ServiceWorker(false, ["No service worker registration found"], [])
    else if swContent.None? then ServiceWorker(true, ["Service worker file not accessible"], [])
    else ServiceWorker(true, [], Capabilities(swContent.value))
  }

  /** `checkServiceWorker`. */
  method CheckServiceWorker(scriptTexts: seq<string>, swContent: Option<string>) returns (r: ServiceWorker)
    ensures r == WorkerReport(scriptTexts, swContent)
    ensures r.exists_ == RegistersWorker(scriptTexts)
    ensures !r.exists_ ==> r == ServiceWorker(false, ["No service worker registration found"], [])
    ensures r.exists_ && swContent.None? ==> r == ServiceWorker(true, ["Service worker file not accessible"], [])
    ensures r.exists_ && swContent.Some? ==> r == ServiceWorker(true, [], Capabilities(swContent.value))
    ensures |r.capabilities| <= 4
  {
    r := ServiceWorker(RegistersWorker(scriptTexts), [], []);
    if !r.exists_ {
      r := r.(issues := r.issues + ["No service worker registration found"]);
      return;
    }
    if swContent.None? {
      r := r.(issues := r.issues + ["Service worker file not accessible"]);
      return;
    }
    var content := swContent.value;
    var caps: seq<string> := [];
    if Contains(content, "cache.addAll") {
      caps := caps + ["Static Asset Caching"];
    }
    assert caps == (if Contains(content, "cache.addAll") then ["Static Asset Caching"] else []);
    ghost var first := caps;
    if Contains(content, "fetch") {
      caps := caps + ["Network Interception"];
    }
    assert caps == first + (if Contains(content, "fetch") then ["Network Interception"] else []);
    ghost var second := caps;
    if Contains(content, "push") {
      caps := caps + ["Push Notifications"];
    }
    assert caps == second + (if Contains(content, "push") then ["Push Notifications"] else []);
    ghost var third := caps;
    if Contains(content, "sync") {
      caps := caps + ["Background Sync"];
    }
    assert caps == third + (if Contains(content, "sync") then ["Background Sync"] else []);
    r := r.(capabilities := caps);
  }

  /** 20 for a manifest, plus 5 each for name, icons, start_url and display. */
  function ManifestPoints(manifest: Option<Manifest>): (p: nat)
    ensures p <= 40
    ensures manifest.None? <==> p == 0
  {
    match manifest
    case None => 0
    case Some(m) =>
      20 + (if Truthy(m.name) then 5 else 0) + (if HasIcons(m) then 5 else 0) +
      (if Truthy(m.startUrl) then 5 else 0) + (if Truthy(m.display) then 5 else 0)
  }

  /** 20 for a registered worker, plus 2 per capability. */
  function WorkerPoints(sw: ServiceWorker): nat {
    if sw.exists_ then 20 + 2 * |sw.capabilities| else 0
  }

  /** 5 when offline capable, plus 5 below 3000 ms or 3 below 5000 ms. */
  function PerformancePoints(perf: Performance): (p: nat)
    ensures p <= 10
  {
    (if perf.offlineCapable then 5 else 0) +
    (if perf.loadTime < 3000 then 5 else if perf.loadTime < 5000 then 3 else 0)
  }

  function PwaPoints(manifest: Option<Manifest>, sw: ServiceWorker, inst: Installability, perf: Performance): nat {
    ManifestPoints(manifest) + WorkerPoints(sw) + (if inst.canBeInstalled then 20 else 0) + PerformancePoints(perf)
  }

  /** `calculatePWAScore`. */
  method CalculatePwaScore(manifest: Option<Manifest>, sw: ServiceWorker, inst: Installability, perf: Performance)
    returns (score: int)
    ensures score == (if PwaPoints(manifest, sw, inst, perf) < 100 then PwaPoints(manifest, sw, inst, perf) else 100)
    ensures 0 <= score <= 100
  {
    score := 0;
    if manifest.Some? {
      var m := manifest.value;
      score := score + 20;
      score := score + (if Truthy(m.name) then 5 else 0);
      score := score + (if HasIcons(m) then 5 else 0);
      score := score + (if Truthy(m.startUrl) then 5 else 0);
      score := score + (if Truthy(m.display) then 5 else 0);
    }
    if sw.exists_ {
      score := score + 20;
      score := score + |sw.capabilities| * 2;
    }
    if inst.canBeInstalled {
      score := score + 20;
    }
    if perf.offlineCapable { score := score + 5; }
    if perf.loadTime < 3000 { score := score + 5; }
    else if perf.loadTime < 5000 { score := score + 3; }
    score := if score < 100 then score else 100;
  }

  /** `short_name` satisfies the name requirements but earns no points. */
  lemma ShortNameEarnsNothing(m: Manifest, s: Option<string>)
    ensures ManifestPoints(Some(m.(shortName := s))) == ManifestPoints(Some(m))
  {
  }

  /** The worker's share is 20 + 2 per capability, at most 28 from the four checks. */
  lemma WorkerAtMost28(sw: ServiceWorker)
    requires |sw.capabilities| <= 4
    ensures WorkerPoints(sw) <= 28
  {
  }

  /** Faster loads never score lower. */
  lemma FasterNeverScoresLower(perf: Performance, t: int)
    requires t <= perf.loadTime
    ensures PerformancePoints(perf) <= PerformancePoints(perf.(loadTime := t))
  {
  }

  /** With at most four capabilities the points stay at or below 98, so the cap at
      100 never binds. */
  lemma PointsAtMost98(manifest: Option<Manifest>, sw: ServiceWorker, inst: Installability, perf: Performance)
    requires |sw.capabilities| <= 4
    ensures PwaPoints(manifest, sw, inst, perf) <= 98
  {
  }

  /** `analyzePWAReadiness(url)`: a failed page fetch is rethrown. */
  method AnalyzePwaReadiness(page: Result<PwaPage>) returns (r: Result<PwaResult>)
    ensures page.Err? ==> r == Err(page.error)
    ensures page.Ok? ==> r.Ok? && 0 <= r.value.score <= 98
    ensures page.Ok? ==>
              r.value.report == PwaReport(
                ManifestReport(page.value.manifest.Some?, ManifestIssues(page.value.manifest), page.value.manifest),
                WorkerReport(page.value.scriptTexts, page.value.swContent),
                InstallabilityOf(page.value.manifest, WorkerReport(page.value.scriptTexts, page.value.swContent)),
                CheckPwaPerformance(page.value.timed))
    ensures page.Ok? ==>
              r.value.score == PwaPoints(page.value.manifest, r.value.report.serviceWorker,
                                         r.value.report.installability, r.value.report.performance)
    ensures page.Ok? ==>
              r.value.report.manifest.exists_ == page.value.manifest.Some? &&
              r.value.report.serviceWorker.exists_ == RegistersWorker(page.value.scriptTexts) &&
              r.value.report.performance == CheckPwaPerformance(page.value.timed) &&
              (r.value.report.installability.canBeInstalled <==>
                 page.value.manifest.Some? && ManifestRequirements(page.value.manifest.value) == [] &&
                 RegistersWorker(page.value.scriptTexts))
  {
    if page.Err? { return Err(page.error); }
    var p := page.value;
    var sw := CheckServiceWorker(p.scriptTexts, p.swContent);
    var installability := CheckInstallability(p.manifest, sw);
    var performance := CheckPwaPerformance(p.timed);
    var score := CalculatePwaScore(p.manifest, sw, installability, performance);
    PointsAtMost98(p.manifest, sw, installability, performance);
    var issues := GetManifestIssues(p.manifest);
    r := Ok(PwaResult(score, PwaReport(ManifestReport(p.manifest.Some?, issues, p.manifest), sw, installability, performance)));
  }
}
