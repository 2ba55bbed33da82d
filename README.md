# auditbuddy-core in Dafny

AuditBuddy audits a website. A url is admitted after validation and a one-hour dedup.
An audit row is stored as `PENDING` and a progress snapshot is seeded in Redis. A
lifecycle then marks the row `RUNNING`, joins five analyzers and stores their scores.
The row ends as `COMPLETED` or `FAILED`.

This project models four parts of that system:

- **Audit orchestration and admission.** This covers the two lifecycles: the
  partial-failure-tolerant `startAuditProcess` and the all-or-nothing `startAudit`. It
  also covers the three admission paths: the GraphQL `createAudit` resolver, the tRPC
  `create`/`getStatus` router, and the GraphQL schema's own resolvers with
  `publishAuditProgress`.
- **Admission policies.** URL validation and the fixed-window rate limiter.
- **Progress and cache plumbing.** The WebSocket subscriber registry, the two Redis
  caches and the edge snapshot endpoint.
- **Analyzer rules.** The deterministic scoring and classification rules of the SEO,
  security, accessibility, technology, GDPR, PWA, bundle, carbon and cookie analyzers.

The outside world is replaced by values:

- The Prisma audit table is a `map<string, Audit>` inside the `AuditStore` class, with a
  log of the writes made.
- Redis is a `map<string, Entry>` inside `RedisStore`, with expiry instants and an `up`
  flag for a connection that fails.
- The clock is a `now` parameter in milliseconds.
- Each analyzer run is a caller-supplied `Outcome`: `Fulfilled(value)` or
  `Rejected(reason)`.
- Each database call takes a `fault: Option<Thrown>`: the error the database answers that
  call with, if any.
- DOM, HTTP and browser queries arrive as already-extracted texts, counts and header
  maps.

Code that changes state in the source is modelled as classes whose methods have
`modifies` clauses. The audit store, the Redis store, the socket registry, the cache
singleton and the pub/sub log are such classes. A method that updates the table is
proved equal to a pure run function of the old state: `StartAuditProcess` is proved equal
to `ProcessRun`, and `StartAudit` to `ServiceRun`. The lemmas about lifecycles are stated
over those run functions. Pure scoring rules are functions; loops in the source are
methods with invariants.

Where the tests and the code disagree, the model follows the code.
`__tests__/lib/audit/process.test.ts:47` expects `COMPLETED_WITH_ERRORS`, but
`lib/audit/process.ts:48` always writes `COMPLETED`, and so does the model
(`AuditProcess.CompletedWhateverRejected`).

Three defects of the code are modelled as written and next to a correction, under
"## Findings". The GraphQL resolver deduplicates on `validation.normalizedUrl`, a
field that `validateUrl` never returns. The schema's own `createAudit` calls
`startAuditProcess` without importing it. The cookie-compliance analyzer calls helpers
that its module never declares.

## Model

| member | source | states |
|---|---|---|
| Validation.WithProtocol | lib/services/validation.ts:10 | an input starting with `http` is kept, any other gets `https://` in front; the result always starts with `http` |
| Validation.ValidateUrl | lib/services/validation.ts:7-35 | valid iff no error, and a valid result carries nothing else; "Please enter a valid URL" iff the prefixed url does not parse as a url or is longer than 2048; "Domain TLD not supported" iff it parses within the bound and the hostname ends in .xyz, .tk or .ml; no other error |
| Validation.PrefixingIsTransparent | lib/services/validation.ts:10 | validating `u` and `https://u` give the same answer when `u` does not start with `http` |
| Validation.BareHostIsPrefixedAndChecked | lib/services/validation.ts:10-27 | a bare host name within the bound is accepted once prefixed, and refused with the TLD message exactly when its lower-cased TLD is blacklisted |
| Validation.OverlongIsRefused | lib/services/validation.ts:4 | an input longer than 2048 characters is refused as not a valid url |
| Url.PlainHostParses | lib/services/validation.ts:13-16 | `scheme://host` for a plain host parses, with scheme and host lower-cased and an empty path and query |
| RateLimit.RateKeyInjective | middleware/rateLimit.ts:10 | distinct ips have distinct counter keys |
| RateLimit.RateLimitRequest | middleware/rateLimit.ts:8-26 | with the store up, the new counters and the decision are those of one `Step`; with it down, the Redis error escapes and nothing changes |
| RateLimit.FreshWindow | middleware/rateLimit.ts:12-16 | with no live counter, the request counts 1, arms the expiry at `now + 60000` and is admitted |
| RateLimit.ExpiryArmedOnlyOnFirst | middleware/rateLimit.ts:14-16 | an increment that does not return 1 leaves the expiry where it was |
| RateLimit.IpsAreIndependent | middleware/rateLimit.ts:10-12 | a check for one ip leaves every other ip's counter as it was |
| RateLimit.Run | middleware/rateLimit.ts:8-26 | a sequence of checks yields one decision per request |
| RateLimit.OneWindow | middleware/rateLimit.ts:6-23 | within one window the counter equals the number of requests, the k-th request is admitted iff k <= 60, and every later one gets 429 "Too many requests" |
| CacheServiceModel.CacheService.constructor | lib/services/cache.ts:6-8 | a new service uses the shared store and the one-hour default |
| CacheServiceModel.CacheService.Get | lib/services/cache.ts:17-25 | the live stored value, or `null` on a miss or a store error |
| CacheServiceModel.CacheService.Set | lib/services/cache.ts:27-38 | the store afterwards is `AfterSet`: SETEX with the effective ttl, or unchanged when the store is down or SETEX refuses the ttl |
| CacheServiceModel.CacheService.Delete | lib/services/cache.ts:40-46 | the key is removed with the store up; an error leaves the store unchanged |
| CacheServiceModel.CacheService.InvalidatePattern | lib/services/cache.ts:48-57 | KEYS then DEL: the matching live keys are removed when there are any |
| CacheServiceModel.CacheServiceSingleton.GetInstance | lib/services/cache.ts:10-15 | the first call creates the instance, later calls return the one already made |
| CacheServiceModel.CacheServiceSingleton.GetInstanceTwice | lib/services/cache.ts:10-15 | two calls hand out the same object |
| CacheServiceModel.SetThenGet | lib/services/cache.ts:17-33 | `set` then `get` before expiry gives the value back |
| CacheServiceModel.DefaultTtlLivesOneHour | lib/services/cache.ts:6-34 | a default-ttl entry reads back for exactly 3600000 ms, and ttl 0 behaves as no ttl |
| CacheServiceModel.NegativeTtlStoresNothing | lib/services/cache.ts:30-37 | a negative ttl makes SETEX fail, and the swallowed failure stores nothing |
| CacheServiceModel.SetLeavesOtherKeys | lib/services/cache.ts:27-34 | `set` changes no other key |
| CacheServiceModel.DeleteRemovesExactlyKey | lib/services/cache.ts:40-42 | after `delete` that key misses and every other key reads as before |
| CacheServiceModel.InvalidateRemovesExactlyMatching | lib/services/cache.ts:48-53 | after `invalidatePattern` exactly the keys the glob matches miss |
| CacheServiceModel.FailuresAreSwallowed | lib/services/cache.ts:22-56 | with the store down, reads miss and no write changes anything |
| AuditCache.AuditKey | lib/cache/redis.ts:12-29 | the key is `audit:` followed by the id, and the id can be read back from it |
| AuditCache.AuditKeyInjective | lib/cache/redis.ts:12-29 | distinct ids have distinct keys |
| AuditCache.AuditResultCache.constructor | lib/cache/redis.ts:4-11 | the cache uses the given store |
| AuditCache.AuditResultCache.GetAuditResult | lib/cache/redis.ts:15-18 | the live value or `null`; a store error reaches the caller |
| AuditCache.AuditResultCache.SetAuditResult | lib/cache/redis.ts:13-26 | the value is stored under `audit:<id>` with a TTL of 86400 s; a store error reaches the caller |
| AuditCache.AuditResultCache.InvalidateAudit | lib/cache/redis.ts:28-30 | the key `audit:<id>` is removed; a store error reaches the caller |
| AuditCache.GetAfterSet | lib/cache/redis.ts:15-26 | a stored result reads back for 24 hours and is `null` afterwards |
| AuditCache.GetAfterInvalidate | lib/cache/redis.ts:15-30 | after `invalidateAudit` the result reads as `null` |
| AuditCache.DistinctAuditsDoNotInterfere | lib/cache/redis.ts:12-29 | writing or invalidating one audit leaves every other audit's entry as it was |
| EdgeRoute.HandleGet | app/api/edge/audit/route.ts:7-26 | no (or an empty) id gives 400 "Audit ID is required"; a store error gives 500; a hit gives 200 with the stored snapshot; a miss gives 404 `NOT_FOUND`; the handler only reads the store |
| EdgeRoute.ResponsesAreClassified | app/api/edge/audit/route.ts:11-25 | the status is one of 200, 400, 404, 500, and 200 exactly when there is a live snapshot for a given id |
| ProgressSockets.Added | lib/websocket/auditProgress.ts:39-44 | the id is registered with the socket in its set; an existing set only gains the socket; other ids are unchanged |
| ProgressSockets.Removed | lib/websocket/auditProgress.ts:46-51 | the socket leaves the id's set; the id is dropped exactly when its set becomes empty; other ids are unchanged |
| ProgressSockets.Recipients | lib/websocket/auditProgress.ts:53-58 | a socket receives iff it is registered under that id and open; an unknown id has no recipients |
| ProgressSockets.AddedKeepsNoEmptySets | lib/websocket/auditProgress.ts:39-44 | `addClient` never leaves an id with an empty set |
| ProgressSockets.RemovedKeepsNoEmptySets | lib/websocket/auditProgress.ts:46-51 | `removeClient` never leaves an id with an empty set |
| ProgressSockets.AddTwiceIsAddOnce | lib/websocket/auditProgress.ts:39-44 | adding the same socket twice equals adding it once |
| ProgressSockets.AddThenRemoveRestores | lib/websocket/auditProgress.ts:39-51 | adding a new socket and removing it restores the registry |
| ProgressSockets.ProgressServer.constructor | lib/websocket/auditProgress.ts:14-19 | the server starts with no clients, nothing closed and nothing sent |
| ProgressSockets.ProgressServer.AddClient | lib/websocket/auditProgress.ts:39-44 | the registry becomes `Added`, and no empty set appears |
| ProgressSockets.ProgressServer.RemoveClient | lib/websocket/auditProgress.ts:46-51 | the registry becomes `Removed`, and no empty set appears |
| ProgressSockets.ProgressServer.OnConnection | lib/websocket/auditProgress.ts:22-32 | a connection without an audit id is closed and not registered; any other is added |
| ProgressSockets.ProgressServer.OnClose | lib/websocket/auditProgress.ts:33-35 | closing a socket removes it from its audit's set |
| ProgressSockets.ProgressServer.BroadcastProgress | lib/websocket/auditProgress.ts:53-59 | exactly one frame is sent to each open socket registered under the id, and nothing to anyone else |
| Seo.LengthStatus | lib/audit/analyzers/seo.ts:129-184 | bad iff the length is 0, good iff it is positive and within the bounds, warning otherwise |
| Seo.AnalyzeTitleTag | lib/audit/analyzers/seo.ts:129-155 | value and length echo the title; status by the 30-60 bounds, with the missing and well-optimized messages |
| Seo.AnalyzeMetaDescription | lib/audit/analyzers/seo.ts:158-184 | value and length echo the text; status by the 120-155 bounds, with the missing and well-optimized messages |
| Seo.AnalyzeHeadings | lib/audit/analyzers/seo.ts:187-215 | the h1 count and texts; bad for none, warning for more than one, good for exactly one |
| Seo.AnalyzeImages | lib/audit/analyzers/seo.ts:218-246 | the total and the number without alt; never bad; good iff there are images and every one has an alt |
| Seo.AnalyzeLinks | lib/audit/analyzers/seo.ts:249-266 | it throws iff the base url does not parse and some href (a missing one read as '') does not start with '/', since only those hrefs build the base url; otherwise internal counts the hrefs that start with '/' or contain the base hostname (all of them when that url does not parse), internal + external is the number of links and broken is 0; good iff there is a link, never bad |
| Seo.HalfWeight | lib/audit/analyzers/seo.ts:270-274 | a status weighs at most two half points |
| Seo.HalfWeights | lib/audit/analyzers/seo.ts:276-278 | the total weight is at most two half points per check |
| Seo.CalculateScore | lib/audit/analyzers/seo.ts:269-280 | a score exists iff there is at least one status |
| Seo.ScoreBounds | lib/audit/analyzers/seo.ts:269-280 | the score is in [0, 100]; all good gives 100 and all bad gives 0 |
| Seo.AllGoodWeights | lib/audit/analyzers/seo.ts:270-279 | all good weighs 2 half points per check |
| Seo.AllBadWeights | lib/audit/analyzers/seo.ts:270-279 | all bad weighs 0 |
| Seo.ImprovingNeverLowersScore | lib/audit/analyzers/seo.ts:269-280 | raising one status's weight never lowers the score |
| Seo.WeightsUpdate | lib/audit/analyzers/seo.ts:270-279 | replacing one status changes the total weight by the difference of the two weights |
| Seo.FiveChecksScore | lib/audit/analyzers/seo.ts:269-280 | for the five checks the score is 10 times the sum of half weights |
| Seo.AnalyzeSeo | lib/audit/analyzers/seo.ts:41-127 | the score is in [0, 100]; the error result iff the fetch failed or the link analysis threw; otherwise the five sections are the title, meta description, headings, images and links analyses of the page's facts and the score is `calculateScore` of their statuses |
| Seo.ErrorResultIsAllBad | lib/audit/analyzers/seo.ts:88-125 | the error result has score 0 and every section bad |
| Security.HeaderLookupIgnoresCase | lib/audit/analyzers/security.ts:68 | a header is found under any ASCII spelling of its name, since the lookup uses the lower-cased name |
| Security.ReportFor | lib/audit/analyzers/security.ts:68-90 | present and value come from the lookup; good iff present, bad iff missing and required, warning iff missing and optional |
| Security.Points | lib/audit/analyzers/security.ts:74-78 | 0 iff missing, otherwise 20 for a required header and 10 for an optional one |
| Security.Ssl | lib/audit/analyzers/security.ts:94-100 | ssl is valid iff the url starts with `https`, with status good or bad to match |
| Security.AnalyzeSecurityHeaders | lib/audit/analyzers/security.ts:58-139 | a failed request gives the error result; otherwise one report per configured header, score min(100, header points + 20 for https), and no vulnerabilities |
| Security.ScoreAtMostMax | lib/audit/analyzers/security.ts:67-91 | header points never exceed the sum of maxima, and reach it when every header is present |
| Security.MaxIs110 | lib/audit/analyzers/security.ts:31-56 | the configured headers are worth 110 points at most |
| Security.ScoreInRange | lib/audit/analyzers/security.ts:107 | the final score is in [0, 100] |
| Security.CapBinds | lib/audit/analyzers/security.ts:102-107 | an https site with every header reaches a raw 130, so the cap binds |
| Security.ReportsCoverEveryHeader | lib/audit/analyzers/security.ts:67-90 | the report has an entry exactly for each configured header |
| Security.ReportsAreByHeader | lib/audit/analyzers/security.ts:85-90 | each configured header's entry is its own report |
| Security.ErrorReportsAreBad | lib/audit/analyzers/security.ts:117-136 | on error every header is reported not present and bad |
| Accessibility.Score | lib/audit/analyzers/accessibility.ts:49-59 | the score is in [0, 100], and 100 iff nothing is deducted |
| Accessibility.PerfectScoreMeansOnlyMinor | lib/audit/analyzers/accessibility.ts:50-59 | the score is 100 iff every violation is minor |
| Accessibility.DeductionOfAppend | lib/audit/analyzers/accessibility.ts:55-59 | one more violation deducts 15, 10, 5 or 0 by its impact |
| Accessibility.MinorIsIgnored | lib/audit/analyzers/accessibility.ts:50-59 | a minor violation never changes the score |
| Accessibility.ViolationNeverRaisesScore | lib/audit/analyzers/accessibility.ts:55-59 | a violation never raises the score, and a non-minor one lowers a positive score |
| Accessibility.ErrorResult | lib/audit/analyzers/accessibility.ts:91-104 | score 0, one critical violation "Error analyzing accessibility" with the error message, empty passes and incomplete |
| Accessibility.AnalyzeAccessibility | lib/audit/analyzers/accessibility.ts:35-111 | the score is in [0, 100]; an error gives the error result; otherwise the score deducts by impact, the violation reports copy each axe violation in order (impact, help, description, and each node's html and target), and the passes and incomplete reports copy each rule's id, description and nodes |
| Accessibility.ReportKeepsOnlyCopiedFields | lib/audit/analyzers/accessibility.ts:64-72 | violations that agree on impact, help, description and node reports give the same report: violation ids, help urls and failure summaries are dropped |
| Accessibility.NoViolationsIsPerfect | lib/audit/analyzers/accessibility.ts:49-59 | no violations scores 100 |
| Technologies.Detected | lib/audit/analyzers/technologies.ts:46-70 | at most two technologies, the generator's CMS first; React is found iff the html contains `react` |
| Technologies.AnalyzeTechnologies | lib/audit/analyzers/technologies.ts:18-84 | success iff a technology was found; a fetch failure, invalid html or an unexpected error each give their single message; CMS detection that throws adds "CMS detection failed" |
| Gdpr.AnalyzeCookieConsent | lib/audit/analyzers/gdprCompliance.ts:93-134 | no banner gives exactly the no-banner issue; a banner gives one issue for each of `reject` and `preferences` missing; compliant iff there are no issues |
| Gdpr.MissingTopicIssue | lib/audit/analyzers/gdprCompliance.ts:171 | the topic can be read back from its issue |
| Gdpr.MissingTopics | lib/audit/analyzers/gdprCompliance.ts:161-173 | an issue for a required topic is present iff the lower-cased policy text lacks that topic |
| Gdpr.AnalyzePrivacyPolicy | lib/audit/analyzers/gdprCompliance.ts:136-187 | a policy exists iff a link text mentions privacy; no link, or a policy that cannot be fetched, gives its single issue; otherwise one issue per missing topic |
| Gdpr.DetectFormPurpose | lib/audit/analyzers/gdprCompliance.ts:330-337 | newsletter, contact, register and login are tried in that order, and "Unknown" iff none is found |
| Gdpr.Names | lib/audit/analyzers/gdprCompliance.ts:192 | the fields are exactly the inputs that have a name |
| Gdpr.AnalyzeForm | lib/audit/analyzers/gdprCompliance.ts:190-208 | a form gets the consent issue iff some field is personal data and no checkbox says consent or agree; it has no other issue |
| Gdpr.DetectTrackers | lib/audit/analyzers/gdprCompliance.ts:339-361 | Google Analytics and Facebook Pixel are reported iff a script src contains their marker, never compliant |
| Gdpr.AnalyzeDataProtection | lib/audit/analyzers/gdprCompliance.ts:219-255 | a failed request gives its single issue; otherwise secure transfer iff https, encryption iff CSP is set, and no issues iff https and the three headers are set |
| Gdpr.GenerateRecommendations | lib/audit/analyzers/gdprCompliance.ts:257-285 | the banner recommendation iff there is no banner and the policy recommendation iff there is no policy, banner first; all critical |
| Gdpr.CalculateGdprScore | lib/audit/analyzers/gdprCompliance.ts:287-312 | the score is the clamped deduction total, in [0, 100] |
| Gdpr.FixedScore | lib/audit/analyzers/gdprCompliance.ts:293-304 | the score before the form loop is 100 less 30 for a missing banner, 20 for non-compliance, 30 for a missing policy, 20 without https and 5 per cookie, policy and protection issue |
| Gdpr.TrackersDoNotCount | lib/audit/analyzers/gdprCompliance.ts:293-311 | trackers never change the score |
| Gdpr.FormWithIssueCostsTen | lib/audit/analyzers/gdprCompliance.ts:307-309 | a form with an issue deducts 10, one without deducts nothing |
| Gdpr.MissingBannerCosts55 | lib/audit/analyzers/gdprCompliance.ts:296-302 | a missing banner deducts 30 + 20 + 5 more than a compliant one |
| Gdpr.CleanPageScores100 | lib/audit/analyzers/gdprCompliance.ts:287-312 | a compliant banner, a complete policy, https, no protection issues and clean forms score 100 |
| Gdpr.CleanFormsCountZero | lib/audit/analyzers/gdprCompliance.ts:307-309 | forms without issues deduct nothing |
| Gdpr.AnalyzeGdprCompliance | lib/audit/analyzers/gdprCompliance.ts:43-91 | a failed page fetch is rethrown; otherwise the cookie consent, privacy policy, data collection and data protection parts are those analyses of the page, the recommendations are those for its missing banner and policy, and the score is the clamped raw score of the parts |
| Pwa.CheckInstallability | lib/audit/analyzers/pwaReadiness.ts:125-156 | installable iff nothing is missing; the missing list is "Web App Manifest" for a null manifest, else the manifest requirements it fails, then "Service Worker" when none is registered |
| Pwa.CompleteManifestIsEnough | lib/audit/analyzers/pwaReadiness.ts:131-146 | a manifest with name, icons, start_url and display misses nothing |
| Pwa.GetManifestIssues | lib/audit/analyzers/pwaReadiness.ts:193-229 | a null manifest gives exactly "No web app manifest found"; otherwise one issue per failed check, in check order: name or short_name, icons or a suitable icon, start_url, display, background_color, theme_color |
| Pwa.IconIssues | lib/audit/analyzers/pwaReadiness.ts:205-213 | "Missing icons" iff there are no icons; the suitable-icons issue iff there are icons but none is 192x192 or 512x512 |
| Pwa.ManifestIssuesBounds | lib/audit/analyzers/pwaReadiness.ts:193-229 | at most six issues; none iff the manifest has a name, a suitable icon, start_url, display and both colours |
| Pwa.DetectCacheStrategy | lib/audit/analyzers/pwaReadiness.ts:178-191 | "no-cache" when cache-control holds no-cache or no-store; otherwise "immutable" when it holds immutable; otherwise "time-based" when it holds max-age; "default" iff none of the four appears |
| Pwa.CheckPwaPerformance | lib/audit/analyzers/pwaReadiness.ts:158-176 | a failed request gives not offline-capable with load time 0; otherwise offline-capable with the measured load time |
| Pwa.Capabilities | lib/audit/analyzers/pwaReadiness.ts:106-117 | each of the four capabilities is listed iff the worker script contains its keyword |
| Pwa.CheckServiceWorker | lib/audit/analyzers/pwaReadiness.ts:84-123 | a worker exists iff a script registers one; an unregistered worker gives its single issue, an unreadable worker file its single issue; otherwise no issue and the capabilities found in the file |
| Pwa.ManifestPoints | lib/audit/analyzers/pwaReadiness.ts:240-246 | the manifest earns at most 40, and 0 iff there is none |
| Pwa.PerformancePoints | lib/audit/analyzers/pwaReadiness.ts:260-262 | performance earns at most 10 |
| Pwa.CalculatePwaScore | lib/audit/analyzers/pwaReadiness.ts:231-265 | the score is the point total capped at 100 |
| Pwa.ShortNameEarnsNothing | lib/audit/analyzers/pwaReadiness.ts:240-246 | short_name does not change the manifest points |
| Pwa.WorkerAtMost28 | lib/audit/analyzers/pwaReadiness.ts:249-252 | a worker earns at most 20 + 2 per capability, so 28 |
| Pwa.FasterNeverScoresLower | lib/audit/analyzers/pwaReadiness.ts:261-262 | a shorter load time never earns fewer points |
| Pwa.PointsAtMost98 | lib/audit/analyzers/pwaReadiness.ts:237-264 | the total never exceeds 98, so the cap never binds |
| Pwa.AnalyzePwaReadiness | lib/audit/analyzers/pwaReadiness.ts:29-72 | a failed fetch is rethrown; otherwise the manifest report is its existence and `getManifestIssues`, the worker, installability and performance reports are those checks of the page, and the score is their point total, which stays in [0, 98] |
| BundleAnalysis.BundleName | lib/audit/analyzers/bundleAnalysis.ts:49-79 | a bundle name is empty only for an empty src |
| BundleAnalysis.BundleOf | lib/audit/analyzers/bundleAnalysis.ts:34-113 | a fetched asset with content becomes a bundle of its byte size; JS coverage is 70 and tree-shaking is detected from the content; CSS is tree-shakeable with its measured coverage |
| BundleAnalysis.Bundles | lib/audit/analyzers/bundleAnalysis.ts:34-92 | at most one bundle per asset |
| BundleAnalysis.BundlesHaveKind | lib/audit/analyzers/bundleAnalysis.ts:34-113 | every bundle has the kind asked for, and every JS bundle has coverage 70 |
| BundleAnalysis.AnalyzeAssets | lib/audit/analyzers/bundleAnalysis.ts:34-92 | the loop collects exactly the bundles of the assets, in order |
| BundleAnalysis.TotalSizeAppend | lib/audit/analyzers/bundleAnalysis.ts:235 | the total size of joined lists is the sum of their totals |
| BundleAnalysis.TotalSizeBoundsEach | lib/audit/analyzers/bundleAnalysis.ts:235 | every bundle's size is at most the total |
| BundleAnalysis.GenerateBundleRecommendations | lib/audit/analyzers/bundleAnalysis.ts:134-182 | the loop yields exactly the per-bundle issues and recommendations, in order |
| BundleAnalysis.BundleAdvice | lib/audit/analyzers/bundleAnalysis.ts:149-180 | one bundle yields the size issue and recommendation for a script over 250000 bytes, then the coverage pair below 50% |
| BundleAnalysis.IssuesPairWithRecommendations | lib/audit/analyzers/bundleAnalysis.ts:149-179 | issues and recommendations have equal length, and each issue's severity is its recommendation's impact |
| BundleAnalysis.SizeIssueOnlyForLargeScripts | lib/audit/analyzers/bundleAnalysis.ts:150-163 | a high issue appears iff the bundle is JS over 250000 bytes, with savings round(0.4 size) |
| BundleAnalysis.SizeDeduction | lib/audit/analyzers/bundleAnalysis.ts:192-193 | the size deduction is 0, 10 or 20: nothing iff the total is at most 500000, 20 iff it is above 1000000 |
| BundleAnalysis.SizeDeductionMonotone | lib/audit/analyzers/bundleAnalysis.ts:192-193 | a larger total is never deducted less |
| Rounding.Clamp | lib/audit/analyzers/gdprCompliance.ts:311 | the result is in [0, 100]: a score inside is kept, one below becomes 0 and one above becomes 100 |
| BundleAnalysis.CalculateBundleScore | lib/audit/analyzers/bundleAnalysis.ts:184-217 | the loops compute the clamped deduction total, in [0, 100] |
| BundleAnalysis.IssueDeductionsAppend | lib/audit/analyzers/bundleAnalysis.ts:202-214 | issue deductions of joined lists add up |
| BundleAnalysis.BundleCost | lib/audit/analyzers/bundleAnalysis.ts:196-214 | each bundle lowers the pre-clamp score by its own cost |
| BundleAnalysis.LargeBundleCosts | lib/audit/analyzers/bundleAnalysis.ts:197-206 | a large JS bundle costs 15 (5 for size, 10 for its issue), a large CSS bundle 5 |
| BundleAnalysis.Analysis | lib/audit/analyzers/bundleAnalysis.ts:219-256 | the score is in [0, 100], issues pair with recommendations, and the total size is the sum of the JS then CSS bundles |
| BundleAnalysis.AnalysisOf | lib/audit/analyzers/bundleAnalysis.ts:236-255 | the result for a bundle list reports that list and its total size, the score is in [0, 100], and issues pair with recommendations |
| BundleAnalysis.AnalyzeBundles | lib/audit/analyzers/bundleAnalysis.ts:219-256 | a failed fetch is rethrown, otherwise the analysis |
| CarbonFootprint.CalculatePercentileRank | lib/audit/analyzers/carbonFootprint.ts:129-144 | the loop returns the rank at the first threshold not below co2 |
| CarbonFootprint.RankNonIncreasing | lib/audit/analyzers/carbonFootprint.ts:130-143 | the rank never rises with co2 |
| CarbonFootprint.RankInRange | lib/audit/analyzers/carbonFootprint.ts:130-143 | the rank is in [0, 90], and 0 iff co2 is above 6 |
| CarbonFootprint.GenerateRecommendations | lib/audit/analyzers/carbonFootprint.ts:102-127 | equals `RecommendationsFor`: an image recommendation iff images exceed 500000, a script one iff scripts exceed 300000, images first, each with its kB over budget; at most two, pageSize ignored |
| CarbonFootprint.Co2PerPage | lib/audit/analyzers/carbonFootprint.ts:38-42 | the co2 per page is never negative |
| CarbonFootprint.CarbonScore | lib/audit/analyzers/carbonFootprint.ts:46-49 | the score is in [0, 100] |
| CarbonFootprint.ScoreNonIncreasing | lib/audit/analyzers/carbonFootprint.ts:46-49 | more co2 never scores higher |
| CarbonFootprint.AnalyzeCarbonFootprint | lib/audit/analyzers/carbonFootprint.ts:19-62 | a failed fetch is rethrown; otherwise totalSize = page + images + scripts, with the co2, annual emissions, rank and score from it, and the recommendations are those for the image and script sizes (images first, each with its kB over budget) |
| CookieCompliance.PluralKeywordIsRedundant | lib/audit/analyzers/cookieCompliance.ts:65-71 | the banner check holds iff some lower-cased element text contains cookie, gdpr, ccpa or consent |
| CookieCompliance.FindDomainPart | lib/audit/analyzers/cookieCompliance.ts:81 | the first attribute containing `Domain=`, or none |
| CookieCompliance.ParseCookie | lib/audit/analyzers/cookieCompliance.ts:75-86 | every parsed cookie is compliant |
| CookieCompliance.ParseCookies | lib/audit/analyzers/cookieCompliance.ts:74-88 | one cookie per Set-Cookie header, in order, each compliant |
| CookieCompliance.NameIsBeforeFirstSeparator | lib/audit/analyzers/cookieCompliance.ts:76-80 | the name is the trimmed text before the first `;` or `=` |
| CookieCompliance.DomainIsBetweenEquals | lib/audit/analyzers/cookieCompliance.ts:81 | the domain is the text between the first and second `=` of the first `Domain=` attribute, or empty |
| CookieCompliance.GdprImpliesCcpa | lib/audit/analyzers/cookieCompliance.ts:55-56 | gdprCompliant implies ccpaCompliant, and they differ exactly for scores 75 to 79 |
| CookieCompliance.AnalyzeCookieCompliance | lib/audit/analyzers/cookieCompliance.ts:27-90 | as written: a failed fetch is rethrown, and every fetched page rejects, with "classifyCookiePurpose is not defined" when there is a set-cookie line and with "detectConsentManagement is not defined" otherwise |
| CookieCompliance.AnalyzeCookieComplianceCorrected | lib/audit/analyzers/cookieCompliance.ts:27-63 | with the missing helpers supplied: a failed fetch is rethrown; otherwise the banner flag, the parsed cookies of the set-cookie lines, gdprCompliant iff score >= 80 and ccpaCompliant iff score >= 75 |
| CookieCompliance.AsWrittenNeverReports | lib/audit/analyzers/cookieCompliance.ts:37-90 | on every fetched page the written analyzer rejects where the corrected one reports the parsed cookies |
| AuditStore.EmptyPatchKeepsRow | lib/audit/process.ts:21-62 | an update that gives no field leaves the row unchanged |
| AuditStore.ApplyTwiceIsApplyOnce | lib/audit/process.ts:21-62 | applying the same update twice gives the row one application gives |
| AuditStore.FreshId | lib/graphql/resolvers/audit.ts:33-39 | a created row gets an id not yet in the table |
| AuditStore.AuditStore.FindUnique | lib/audit/process.ts:12-14 | the row for the id, or none; a database error is returned |
| AuditStore.AuditStore.FindFirst | server/api/routers/audit.ts:24-33 | a returned row is stored and matches the url and the window; none means no row matches |
| AuditStore.AuditStore.Create | lib/graphql/resolvers/audit.ts:33-39 | an absent url is refused with Prisma's missing-argument error; otherwise one new `PENDING` row under a fresh id |
| AuditStore.AuditStore.Update | lib/audit/process.ts:21-24 | a missing id is refused with "Record to update not found."; otherwise the row is patched and nothing else changes |
| AuditStore.PatchKeepsMatch | server/api/routers/audit.ts:24-33 | an update never changes whether a row matches the dedup filter |
| AuditProcess.StartAuditProcess | lib/audit/process.ts:9-65 | the table, the writes and the rejection are those of `ProcessRun` |
| AuditProcess.RunningIsWrittenFirst | lib/audit/process.ts:21-24 | `RUNNING` is the first write, and only a later `COMPLETED` write carries results |
| AuditProcess.CompletedWhateverRejected | lib/audit/process.ts:27-52 | however many analyzers rejected, the row ends `COMPLETED` with completedAt and every settled slot; the writes are exactly `RUNNING` then `COMPLETED` |
| AuditProcess.RejectionIsIsolated | lib/audit/process.ts:27-42 | one analyzer's rejection empties only its own slot |
| AuditProcess.ExceptionMarksFailed | lib/audit/process.ts:54-63 | an exception thrown in the try marks the row `FAILED` with its message and completedAt |
| AuditProcess.MissingAuditCreatesNothing | lib/audit/process.ts:16-62 | for a missing audit nothing is written or created and the promise rejects, with "Record to update not found." when the database answers |
| AuditProcess.OnlyItsAuditIsTouched | lib/audit/process.ts:21-57 | only the given row is written; no row appears or disappears |
| AuditService.FirstRejection | lib/audit/auditService.ts:24-36 | none iff every analyzer fulfilled; otherwise the first rejected reason in dispatch order |
| AuditService.StartAudit | lib/audit/auditService.ts:8-64 | the table, the writes and the rejection are those of `ServiceRun` |
| AuditService.MissingAuditWritesNothing | lib/audit/auditService.ts:9-14 | a missing audit returns with no write |
| AuditService.LookupErrorEscapes | lib/audit/auditService.ts:9-14 | a lookup error escapes with no write |
| AuditService.AllFulfilledCompletes | lib/audit/auditService.ts:39-53 | when all five fulfil, the row is `COMPLETED` with all five columns |
| AuditService.AnyRejectionFails | lib/audit/auditService.ts:24-62 | one rejection marks the row `FAILED` with its message, and no score or result column changes |
| AuditService.NoWebsiteFails | lib/audit/auditService.ts:24-62 | an audit with no website always fails with the null-read message |
| AuditService.CatchKeepsRows | lib/audit/auditService.ts:54-62 | the catch block keeps every row's completedAt and every other row |
| AuditService.CompletedAtNeverSet | lib/audit/auditService.ts:39-62 | completedAt is never set, no other row changes, no row appears |
| AuditResolver.RejectionCarriesReason | lib/graphql/resolvers/audit.ts:13-16 | a refused url always carries one of the two validation messages |
| AuditResolver.CreateWith | lib/graphql/resolvers/audit.ts:10-61 | invalid urls are refused with their message and nothing written; a recent matching audit is returned unchanged; otherwise one `PENDING` row with the user is created, `audit:<id>` is seeded, and the id is launched; other errors become "Failed to start audit. Please try again later." |
| AuditResolver.CreateAudit | lib/graphql/resolvers/audit.ts:19-39 | as written: never creates, seeds or launches; it returns any audit of the last hour whatever its url, and fails otherwise |
| AuditResolver.CreateAuditCorrected | lib/graphql/resolvers/audit.ts:10-61 | corrected: a returned audit has the prefixed url; with no faults it succeeds; a launched audit is new, `PENDING`, the caller's, and seeded |
| AuditResolver.AsWrittenDedupIgnoresUrl | lib/graphql/resolvers/audit.ts:19-30 | an audit of https://example.org is returned for a request for example.com |
| AuditResolver.CorrectedDedupMatchesUrl | lib/graphql/resolvers/audit.ts:19-30 | with the prefixed url as key, only audits of that url within the window match |
| AuditRouter.Create | server/api/routers/audit.ts:8-61 | a non-url input and a refused url give BAD_REQUEST with their messages; a recent audit of the same raw input is returned and nothing created; otherwise one `PENDING` row with the session user; other errors give INTERNAL_SERVER_ERROR "Failed to create audit" |
| AuditRouter.GetStatus | server/api/routers/audit.ts:63-81 | the stored row iff the id is stored, else NOT_FOUND "Audit not found"; nothing is written |
| AuditRouter.WindowIsInclusive | server/api/routers/audit.ts:29 | an audit exactly one hour old is still recent, one millisecond more is not |
| GraphqlSchema.AuditById | lib/graphql/schema.ts:76-78 | the stored row for the id, or none |
| GraphqlSchema.ToConnection | lib/graphql/schema.ts:86-95 | one edge per row, in order, its cursor the id; endCursor the last id or none; hasNextPage iff the count equals `first` |
| GraphqlSchema.OmittedFirstHasNoNextPage | lib/graphql/schema.ts:81-92 | with `first` omitted, hasNextPage is false |
| GraphqlSchema.ZeroFirstInvertsNextPage | lib/graphql/schema.ts:81-92 | `first: 0` takes 10, yet reports a next page only for an empty list |
| GraphqlSchema.CreateAndSeed | lib/graphql/schema.ts:99-113 | always one new `PENDING` row with the user, no dedup; then `audit:<id>` seeded with progress 0 "Initializing"; a Redis error escapes after the row exists |
| GraphqlSchema.CreateAudit | lib/graphql/schema.ts:1-116 | as written: the row and the seed are made as above, then the mutation rejects with "startAuditProcess is not defined" and no audit is launched |
| GraphqlSchema.CreateAuditCorrected | lib/graphql/schema.ts:99-119 | with the import in place: the new row is returned and its id launched; a database or Redis error escapes as above |
| GraphqlSchema.CancelAudit | lib/graphql/schema.ts:120-132 | a missing audit or a non-owner gets "Audit not found or unauthorized" and nothing changes; otherwise the row is `FAILED` "Cancelled by user" and true is returned; the cache is not touched |
| GraphqlSchema.CancelOverridesAnyStatus | lib/graphql/schema.ts:126-129 | cancel sets `FAILED` and the message whatever the status was, and changes nothing else |
| GraphqlSchema.AnonymousNeverCancels | lib/graphql/schema.ts:122 | without a user, or for an audit with no owner, cancel is refused |
| GraphqlSchema.Optional | lib/graphql/schema.ts:153 | an optional field is present iff it is given |
| GraphqlSchema.ProgressJson | lib/graphql/schema.ts:153-155 | the snapshot has status and progress, and currentStep and error iff given, nothing else |
| GraphqlSchema.PubSub.constructor | lib/graphql/schema.ts:6 | the event log starts empty |
| GraphqlSchema.PubSub.Publish | lib/graphql/schema.ts:156-159 | one event is appended under its topic |
| GraphqlSchema.Delivered | lib/graphql/schema.ts:134-146 | a subscriber receives at most the events published |
| GraphqlSchema.DeliveredAppend | lib/graphql/schema.ts:136-144 | a new event reaches a subscriber iff its topic is that audit's key |
| GraphqlSchema.PublishAuditProgress | lib/graphql/schema.ts:151-160 | `audit:<id>` holds the snapshot and one event with the id is published; a Redis error publishes nothing |
| GraphqlSchema.PublishReachesOnlyItsAudit | lib/graphql/schema.ts:134-160 | a published update reaches that audit's subscribers and no other's |
| GraphqlSchema.DeliveredAreAboutIt | lib/graphql/schema.ts:134-160 | every update a subscriber receives carries that audit's id |
| GraphqlSchema.PublishThenGetRoundTrips | lib/graphql/schema.ts:155 | after `publishAuditProgress`, the edge GET returns 200 with that snapshot |

## Left out

- Network, browser and DOM work is not modelled. The results of axios, puppeteer, axe, cheerio and Lighthouse are inputs, which makes each analyzer's entry point a function of the extracted page.
- `lib/audit/analyzers/performance.ts` and `lib/audit/analyzers/accessibility.tsx` compute float scores and are not part of this model.
- Redis and Prisma are external. `RedisStore` and `AuditStore` model only the commands and calls the core makes. `lib/config/redis.ts` is not part of this model.
- JSON.stringify and JSON.parse are modelled as an identity round trip on a JSON value.
- Concurrency is not modelled. `Promise.all` rejects with the first rejection in dispatch order, not in timing order. The background `startAuditProcess` call is modelled as the id handed to it (`launched`), and its own failure is not followed.
- The pub/sub async iterator is an appended event log. Only the logged events are modelled, not their delivery.
- The logger is left out.
- GraphqlSchema.ToConnection takes the rows Prisma returns as input. The `orderBy` on createdAt and the `after` cursor are not modelled.
- AuditRouter.Create models zod's rejection as the message "Invalid url". The full error JSON that tRPC produces is left out.
- AuditRouter.Create checks zod's `url()` with the same simplified parse as `new URL`, so it inherits that parse's gaps: "mailto:a@b.com" passes zod and reaches `validateUrl`, but the model answers "Invalid url".
- Url.ParseUrl is a subset of WHATWG URL parsing. It requires `scheme://`, so it refuses "http:example.com", which the platform accepts. It has no bracketed IPv6 hosts, so it refuses "https://[::1]". It accepts any run of digits as a port, so it accepts "https://a.com:70000", which the platform refuses. Percent-decoding, IDNA and host normalisation beyond ASCII lower-casing are left out.
- Validation.ValidateUrl is only as exact as Url.ParseUrl: on the inputs above its answer differs from the source's.
- Redis.GlobMatch supports `*` and `?` only. Redis's `[...]` classes and `\` escapes are not modelled.
- Strings.ToLower folds the ASCII letters only, where `toLowerCase` folds all of Unicode.
- String lengths count Dafny characters, where JavaScript counts UTF-16 code units. The 2048 bound of Validation.ValidateUrl and the length bands of Seo.AnalyzeTitleTag and Seo.AnalyzeMetaDescription differ for text outside the Basic Multilingual Plane.
- AuditRouter.GetStatus treats the `include: { website: true }` join as part of the stored row. A database error is an escaped error.
- Gdpr.AnalyzePrivacyPolicy does not model the `lastUpdated` date. `findLastUpdatedDate` parses dates with a regex; it is left out together with the field.
- Gdpr.AnalyzeDataProtection receives the second request's headers as input.
- CookieCompliance.ParseCookie asks a caller-supplied `Classifier` for each cookie's purpose, type and duration, because `classifyCookiePurpose`, `determineCookieType` and `calculateDuration` are never defined in `cookieCompliance.ts`.
- CookieCompliance.AnalyzeCookieComplianceCorrected takes what `detectConsentManagement`, `analyzeComplianceIssues` and `calculateComplianceScore` would return as page facts, since none of them is defined; the as-written CookieCompliance.AnalyzeCookieCompliance always rejects instead (see "## Findings").
- BundleAnalysis.BundleOf takes the CSS coverage as an input. `estimateCSSCoverage` divides floats by a rule count and is left out. gzip compression is left out too.
- CarbonFootprint.AnalyzeCarbonFootprint takes the image and script sizes as input; `calculateImageSize` and `calculateScriptSize` fetch them over the network.
- Pwa.AnalyzePwaReadiness reports `properties: manifest || {}` as the parsed manifest, or `None` for `{}`. The manifest holds only the fields the analyzer reads, so other manifest members are not carried into `properties`.
- CarbonFootprint.Co2PerPage uses exact reals where JavaScript uses doubles. Rounding (`Math.round`) is floor(x + 1/2) on exact values.
- BundleAnalysis.BundleOf takes the coverage as a whole percentage. `Math.round(size * (1 - coverage / 100))` (lib/audit/analyzers/bundleAnalysis.ts:176) is computed as `RoundRatio(size * (100 - coverage), 100)`, which is exact only for a whole-number coverage.
- GraphqlSchema.ProgressJson takes the progress as an integer, where the schema declares `progress: Float!` (lib/graphql/schema.ts:14).
- Seo.AnalyzeSeo receives the page facts extracted by cheerio. The `broken` link count is always 0 in the source.
- Technologies.AnalyzeTechnologies models the generator lookup as one of three outcomes: found, throws, or load throws.

## Findings

| source | as written | input that shows it | evidently intended | confidence | as-written member | corrected member |
|---|---|---|---|---|---|---|
| lib/graphql/resolvers/audit.ts:19-39 | the dedup filter and the created row use `validation.normalizedUrl`, which `validateUrl` never returns (lib/services/validation.ts:7,27). An undefined filter is dropped, so any audit of the last hour is returned for any url. An undefined `url` is refused by `create`, so the resolver never creates an audit | an audit of https://example.org created at 0, then a request for example.com at 0 | dedup and store on the prefixed url | not executed | AuditResolver.AsWrittenDedupIgnoresUrl | AuditResolver.CreateAuditCorrected |
| lib/graphql/schema.ts:116 | `createAudit` calls `startAuditProcess`, which the module neither declares nor imports (its imports are lib/graphql/schema.ts:1-4). The call throws a ReferenceError after the row is created and the snapshot is seeded, so the mutation rejects, the row and the snapshot stay, and no audit process starts | any `createAudit` call while the database and Redis answer | import `startAuditProcess` from lib/audit/process.ts, return the row and launch the process | not executed | GraphqlSchema.CreateAudit | GraphqlSchema.CreateAuditCorrected |
| lib/audit/analyzers/cookieCompliance.ts:37-90 | `parseCookies` calls `classifyCookiePurpose`, `determineCookieType` and `calculateDuration`, and line 40 calls `detectConsentManagement`; the file ends with a "remaining helper functions" comment and declares none of them. Every fetched page throws a ReferenceError, which the catch at line 61 rethrows | any page that loads; with a set-cookie line the error names `classifyCookiePurpose`, without one `detectConsentManagement` | declare the helpers so the analyzer reports the cookies, the consent detection, the issues and the score | not executed | CookieCompliance.AnalyzeCookieCompliance | CookieCompliance.AnalyzeCookieComplianceCorrected |
