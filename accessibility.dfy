/** The accessibility analyzer: a score deduced from the axe violation impacts, and
    a report that copies the axe results rule by rule. */
module Accessibility {
  import opened Wrappers
  import opened Seqs

  datatype Impact = Critical | Serious | Moderate | Minor

  /** The axe result types, with the fields the report drops (`id`, `helpUrl`,
      `failureSummary`). */
  datatype AxeNode = AxeNode(html: string, target: seq<string>, failureSummary: string)
  datatype AxeViolation = AxeViolation(id: string, impact: Impact, help: string, helpUrl: string,
                                       description: string, nodes: seq<AxeNode>)
  datatype AxeRule = AxeRule(id: string, help: string, description: string, nodes: seq<AxeNode>)
  datatype AxeResults = AxeResults(violations: seq<AxeViolation>, passes: seq<AxeRule>, incomplete: seq<AxeRule>)

  datatype NodeReport = NodeReport(html: string, target: seq<string>)
  datatype ViolationReport = ViolationReport(impact: Impact, help: string, description: string, nodes: seq<NodeReport>)
  datatype RuleReport = RuleReport(id: string, description: string, nodes: seq<NodeReport>)
  datatype AccessibilityReport = AccessibilityReport(violations: seq<ViolationReport>, passes: seq<RuleReport>,
                                                     incomplete: seq<RuleReport>)
  datatype AccessibilityResult = AccessibilityResult(score: int, report: AccessibilityReport)

  function ImpactIs(i: Impact): AxeViolation -> bool {
    (v: AxeViolation) => v.impact == i
  }

  /** `15 * critical + 10 * serious + 5 * moderate`. */
  function Deduction(vs: seq<AxeViolation>): nat {
    15 * Count(vs, ImpactIs(Critical)) + 10 * Count(vs, ImpactIs(Serious)) + 5 * Count(vs, ImpactIs(Moderate))
  }

  function Score(vs: seq<AxeViolation>): (s: int)
    ensures 0 <= s <= 100
    ensures s == 100 <==> Deduction(vs) == 0
  {
    if 100 - Deduction(vs) > 0 then 100 - Deduction(vs) else 0
  }

  /** A perfect score means no critical, serious or moderate violation. */
  lemma PerfectScoreMeansOnlyMinor(vs: seq<AxeViolation>)
    ensures Score(vs) == 100 <==> forall i :: 0 <= i < |vs| ==> vs[i].impact == Minor
  {
    if forall i :: 0 <= i < |vs| ==> vs[i].impact == Minor {
      assert Count(vs, ImpactIs(Critical)) == 0 && Count(vs, ImpactIs(Serious)) == 0 && Count(vs, ImpactIs(Moderate)) == 0;
    } else {
      var i :| 0 <= i < |vs| && vs[i].impact != Minor;
      assert ImpactIs(vs[i].impact)(vs[i]);
    }
  }

  /** A further violation adds its impact's weight to the deduction. */
  lemma DeductionOfAppend(vs: seq<AxeViolation>, v: AxeViolation)
    ensures Deduction(vs + [v]) == Deduction(vs) +
              match v.impact
              case Critical => 15
              case Serious => 10
              case Moderate => 5
              case Minor => 0
  {
    CountAppend(vs, [v], ImpactIs(Critical));
    CountAppend(vs, [v], ImpactIs(Serious));
    CountAppend(vs, [v], ImpactIs(Moderate));
    assert [v][1..] == [];
  }

  /** Minor violations never change the score. */
  lemma MinorIsIgnored(vs: seq<AxeViolation>, v: AxeViolation)
    requires v.impact == Minor
    ensures Score(vs + [v]) == Score(vs)
  {
    DeductionOfAppend(vs, v);
  }

  /** No further violation raises the score; a critical, serious or moderate one
      lowers it until it reaches 0. */
  lemma ViolationNeverRaisesScore(vs: seq<AxeViolation>, v: AxeViolation)
    ensures Score(vs + [v]) <= Score(vs)
    ensures v.impact != Minor && Score(vs) > 0 ==> Score(vs + [v]) < Score(vs)
  {
    DeductionOfAppend(vs, v);
  }

  function NodeOf(n: AxeNode): NodeReport {
    NodeReport(n.html, n.target)
  }

  function Nodes(ns: seq<AxeNode>): (r: seq<NodeReport>)
    ensures |r| == |ns| && forall i :: 0 <= i < |ns| ==> r[i] == NodeReport(ns[i].html, ns[i].target)
  {
    seq(|ns|, i requires 0 <= i < |ns| => NodeOf(ns[i]))
  }

  function Violations(vs: seq<AxeViolation>): (r: seq<ViolationReport>)
    ensures |r| == |vs|
    ensures forall i :: 0 <= i < |vs| ==>
              r[i] == ViolationReport(vs[i].impact, vs[i].help, vs[i].description, Nodes(vs[i].nodes))
  {
    seq(|vs|, i requires 0 <= i < |vs| => ViolationReport(vs[i].impact, vs[i].help, vs[i].description, Nodes(vs[i].nodes)))
  }

  function Rules(rs: seq<AxeRule>): (r: seq<RuleReport>)
    ensures |r| == |rs|
    ensures forall i :: 0 <= i < |rs| ==> r[i] == RuleReport(rs[i].id, rs[i].description, Nodes(rs[i].nodes))
  {
    seq(|rs|, i requires 0 <= i < |rs| => RuleReport(rs[i].id, rs[i].description, Nodes(rs[i].nodes)))
  }

  function ErrorResult(error: Thrown): (r: AccessibilityResult)
    ensures r.score == 0 && |r.report.violations| == 1
    ensures r.report.violations[0] == ViolationReport(Critical, "Error analyzing accessibility", ErrorMessage(error), [])
    ensures r.report.passes == [] && r.report.incomplete == []
  {
    AccessibilityResult(0, AccessibilityReport(
      [ViolationReport(Critical, "Error analyzing accessibility", ErrorMessage(error), [])], [], []))
  }

  /** `analyzeAccessibility(url)`; `axe` is the axe run, or what the browser threw. */
  function AnalyzeAccessibility(axe: Result<AxeResults>): (r: AccessibilityResult)
    ensures 0 <= r.score <= 100
    ensures axe.Err? ==> r == ErrorResult(axe.error)
    ensures axe.Ok? ==> r.score == Score(axe.value.violations)
    ensures axe.Ok? ==> r.report.violations == Violations(axe.value.violations)
    ensures axe.Ok? ==> r.report.passes == Rules(axe.value.passes) && r.report.incomplete == Rules(axe.value.incomplete)
  {
    match axe
    case Err(e) => ErrorResult(e)
    case Ok(res) =>
      AccessibilityResult(Score(res.violations),
        AccessibilityReport(Violations(res.violations), Rules(res.passes), Rules(res.incomplete)))
  }

  /** The report carries no more of a violation than its impact, help, description and
      node html and targets: violations that agree on those give the same report and score. */
  lemma ReportKeepsOnlyCopiedFields(vs: seq<AxeViolation>, ws: seq<AxeViolation>)
    requires |vs| == |ws|
    requires forall i :: 0 <= i < |vs| ==>
               (vs[i].impact == ws[i].impact && vs[i].help == ws[i].help &&
                vs[i].description == ws[i].description && Nodes(vs[i].nodes) == Nodes(ws[i].nodes))
    ensures Violations(vs) == Violations(ws)
  {
  }

  /** An empty page report is a perfect score. */
  lemma NoViolationsIsPerfect(res: AxeResults)
    requires res.violations == []
    ensures AnalyzeAccessibility(Ok(res)).score == 100
  {
  }
}
