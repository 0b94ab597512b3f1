/**
 * The portfolio grading route: a fixed rubric whose base score depends only
 * on whether the request carries more than 200 characters of stripped text,
 * plus fixed advice lists. The report id (`uuid4`) is a parameter.
 */
module Portfolio {
  import opened Wrappers
  import opened Strings

  /** `GradePortfolioRequest`: every field is optional. */
  datatype GradeRequest = GradeRequest(
    candidateName: Option<string>,
    targetRole: Option<string>,
    portfolioUrl: Option<string>,
    notes: Option<string>,
    contentText: Option<string>)

  datatype Rubric = Rubric(overall: int, impact: int, clarity: int, technicalDepth: int, relevance: int, presentation: int)

  datatype GradeResponse = GradeResponse(
    reportId: nat,
    rubric: Rubric,
    strengths: seq<string>,
    gaps: seq<string>,
    recommendations: seq<string>,
    rewrittenBullets: Option<seq<string>>)

  const ROLE_PROVIDED: string := "Target role provided"
  const ROLE_MISSING: string := "Role missing"
  const TEXT_PROVIDED: string := "Text provided"
  const NO_TEXT: string := "No text provided"

  const GAPS: seq<string> := [
    "Add measurable impact (latency, cost, accuracy, throughput)",
    "Add 1\U{2013}2 standout projects with architecture + results"
  ]

  const RECOMMENDATIONS: seq<string> := [
    "Add metrics per project (before/after) and scope",
    "Add links: GitHub + demo + a 1-page case study",
    "Add a short skills summary aligned to target role"
  ]

  const REWRITTEN_BULLETS: seq<string> := [
    "Built a rubric-based portfolio grader that outputs scores, feedback, and action items in a consistent report format.",
    "Designed a Next.js + FastAPI workflow with traceable decisions to support review and iteration."
  ]

  /** Python truthiness of an optional string: present and non-empty. */
  predicate Truthy(o: Option<string>) {
    o.Some? && o.value != ""
  }

  /** Whether the request carries substantial text: more than 200 code
      points once whitespace is stripped. */
  predicate HasText(content: Option<string>) {
    Truthy(content) && |PyStrip(content.value)| > 200
  }

  function Base(content: Option<string>): int {
    if HasText(content) then 72 else 58
  }

  /** The rubric: five sub-scores at fixed offsets below the overall score. */
  function RubricFor(base: int): (r: Rubric)
    ensures r.overall == base
    ensures r.impact == base - 5 && r.clarity == base - 8 && r.technicalDepth == base - 3
    ensures r.relevance == base - 6 && r.presentation == base - 10
  {
    Rubric(base, base - 5, base - 8, base - 3, base - 6, base - 10)
  }

  /** The sub-scores rank the same way whatever the base: technical depth
      highest, then impact, relevance, clarity and presentation, all below
      the overall score. */
  lemma RubricOrder(base: int)
    ensures var r := RubricFor(base);
      r.presentation < r.clarity < r.relevance < r.impact < r.technicalDepth < r.overall
  {
  }

  /** Every score of a rubric lies in [lo, hi]. */
  predicate AllWithin(r: Rubric, lo: int, hi: int) {
    && lo <= r.overall <= hi && lo <= r.impact <= hi && lo <= r.clarity <= hi
    && lo <= r.technicalDepth <= hi && lo <= r.relevance <= hi && lo <= r.presentation <= hi
  }

  /** `grade_portfolio`. */
  function Grade(req: GradeRequest, reportId: nat): (r: GradeResponse)
    ensures r.reportId == reportId
    ensures r.rubric.overall == 72 <==> HasText(req.contentText)
    ensures r.rubric.overall == 58 <==> !HasText(req.contentText)
    ensures r.rubric == RubricFor(r.rubric.overall)
    ensures AllWithin(r.rubric, 48, 72)
    ensures r.strengths == [
      if Truthy(req.targetRole) then ROLE_PROVIDED else ROLE_MISSING,
      if Truthy(req.contentText) then TEXT_PROVIDED else NO_TEXT]
    ensures r.strengths[0] == ROLE_PROVIDED <==> Truthy(req.targetRole)
    ensures r.strengths[1] == TEXT_PROVIDED <==> Truthy(req.contentText)
    ensures r.gaps == GAPS && r.recommendations == RECOMMENDATIONS
    ensures r.rewrittenBullets == Some(REWRITTEN_BULLETS)
  {
    var role := if Truthy(req.targetRole) then ROLE_PROVIDED else ROLE_MISSING;
    var text := if Truthy(req.contentText) then TEXT_PROVIDED else NO_TEXT;
    assert ROLE_MISSING != ROLE_PROVIDED by { assert ROLE_MISSING[0] != ROLE_PROVIDED[0]; }
    assert NO_TEXT != TEXT_PROVIDED by { assert NO_TEXT[0] != TEXT_PROVIDED[0]; }
    GradeResponse(reportId, RubricFor(Base(req.contentText)), [role, text], GAPS, RECOMMENDATIONS, Some(REWRITTEN_BULLETS))
  }

  /** Apart from the report id, the grade depends only on the target role
      and the text: the candidate name, the portfolio URL and the notes are
      ignored. */
  lemma GradeIgnoresOtherFields(req1: GradeRequest, req2: GradeRequest, reportId: nat)
    requires req1.targetRole == req2.targetRole && req1.contentText == req2.contentText
    ensures Grade(req1, reportId) == Grade(req2, reportId)
  {
  }

  /** Text counts as provided as soon as it is non-empty, well below the
      length the higher base score needs. */
  lemma ShortTextIsProvidedButBase58(t: string)
    requires t != "" && |t| <= 200
    ensures Grade(GradeRequest(None, None, None, None, Some(t)), 0).strengths[1] == TEXT_PROVIDED
    ensures Grade(GradeRequest(None, None, None, None, Some(t)), 0).rubric.overall == 58
  {
    assert |PyStrip(t)| <= |t|;
  }
}
