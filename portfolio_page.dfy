/**
 * The portfolio grading screen of the web client: the score bars, the rule
 * that enables the Grade button, and the state the Grade and Clear buttons
 * update. The grading call is left out: its outcome is a parameter of the
 * step that completes it.
 */
module PortfolioPage {
  import opened Wrappers
  import opened Strings
  import opened JsValues
  import opened Display
  import opened Portfolio

  /** `clamp100`. */
  function Clamp100(n: JsNum): (r: real)
    ensures 0.0 <= r <= 100.0
  {
    Clamp(n, 100.0)
  }

  /** `scoreColor`: emerald from 80, amber from 60, red below, on the
      clamped score. */
  function ScoreColor(n: JsNum): (c: BarColor)
    ensures c == Emerald <==> Clamp100(n) >= 80.0
    ensures c == Amber <==> 60.0 <= Clamp100(n) < 80.0
    ensures c == Red <==> Clamp100(n) < 60.0
  {
    ThresholdColor(Clamp100(n), 60.0, 80.0)
  }

  /** What a `Bar` draws: the number it prints, the width of its filled part
      in percent, and the fill colour. */
  datatype BarView = BarView(shown: real, widthPct: real, color: BarColor)

  /** `Bar`: printed value and width are both the clamped value, so the bar
      never overflows its track. */
  function Bar(value: JsNum): (b: BarView)
    ensures b.shown == b.widthPct == Clamp100(value)
    ensures 0.0 <= b.widthPct <= 100.0
    ensures b.color == ScoreColor(value)
  {
    var v := Clamp100(value);
    ClampIdempotent(value, 100.0);
    BarView(v, v, ScoreColor(Fin(v)))
  }

  /** The bar of a whole score is drawn at exactly that width. */
  predicate ExactBar(v: int) {
    Bar(Fin(v as real)).widthPct == v as real
  }

  /** The scores of a rubric, in the order the report draws their bars. */
  function Scores(r: Rubric): seq<int> {
    [r.impact, r.clarity, r.technicalDepth, r.relevance, r.presentation, r.overall]
  }

  /** All six bars of a grading route's report are drawn at their scores'
      own width, amber when the request carries substantial text (scores
      62 to 72) and red otherwise (scores 48 to 58). */
  lemma RubricBarsExact(req: GradeRequest, reportId: nat)
    ensures var sc := Scores(Grade(req, reportId).rubric);
      && |sc| == 6
      && (forall k :: 0 <= k < 6 ==> ExactBar(sc[k]))
      && (HasText(req.contentText) ==> forall k :: 0 <= k < 6 ==> Bar(Fin(sc[k] as real)).color == Amber)
      && (!HasText(req.contentText) ==> forall k :: 0 <= k < 6 ==> Bar(Fin(sc[k] as real)).color == Red)
  {
    var r := Grade(req, reportId).rubric;
    RubricBars(r, HasText(req.contentText));
  }

  /** The bars of the rubric the grading route builds from the text test. */
  lemma RubricBars(r: Rubric, hasText: bool)
    requires r == RubricFor(if hasText then 72 else 58)
    ensures forall k :: 0 <= k < 6 ==> ExactBar(Scores(r)[k])
    ensures hasText ==> forall k :: 0 <= k < 6 ==> Bar(Fin(Scores(r)[k] as real)).color == Amber
    ensures !hasText ==> forall k :: 0 <= k < 6 ==> Bar(Fin(Scores(r)[k] as real)).color == Red
  {
    var sc := Scores(r);
    forall k | 0 <= k < 6
      ensures ExactBar(sc[k])
      && (hasText ==> Bar(Fin(sc[k] as real)).color == Amber)
      && (!hasText ==> Bar(Fin(sc[k] as real)).color == Red)
    {
      ScoreBar(sc[k]);
    }
  }

  /** A whole score in [48, 72] gets a bar of its own width, amber from 62
      and red up to 58. */
  lemma ScoreBar(v: int)
    requires 48 <= v <= 72
    ensures ExactBar(v)
    ensures 62 <= v ==> Bar(Fin(v as real)).color == Amber
    ensures v <= 58 ==> Bar(Fin(v as real)).color == Red
  {
  }

  /** `Boolean(t && t.trim().length > n)`, with JavaScript's length in
      UTF-16 units. */
  predicate LongerThan(t: Option<string>, n: nat) {
    t.Some? && t.value != "" && Utf16Length(JsTrim(t.value)) > n
  }

  /** Some character of the field is not whitespace. */
  predicate NonBlank(o: Option<string>) {
    o.Some? && exists i :: 0 <= i < |o.value| && !IsJsSpace(o.value[i])
  }

  /** `canGrade`: more than 20 units of trimmed text, or more than 5 of
      trimmed URL. Either way one of the two fields holds more than
      whitespace. */
  predicate CanGrade(req: GradeRequest)
    ensures CanGrade(req) ==> NonBlank(req.contentText) || NonBlank(req.portfolioUrl)
  {
    BlankFieldTooShort(req.contentText, 20);
    BlankFieldTooShort(req.portfolioUrl, 5);
    LongerThan(req.contentText, 20) || LongerThan(req.portfolioUrl, 5)
  }

  /** A missing or blank field never passes the length test. */
  lemma BlankFieldTooShort(o: Option<string>, n: nat)
    ensures !NonBlank(o) ==> !LongerThan(o, n)
  {
    if o.Some? && !NonBlank(o) {
      BlankTextCannotGrade(o.value, n);
    }
  }

  /** A text with no surrounding whitespace and more than `n` characters is
      long enough, whatever characters it holds. */
  lemma UntrimmedLongEnough(t: string, n: nat)
    requires |t| > n
    requires !IsJsSpace(t[0]) && !IsJsSpace(t[|t| - 1])
    ensures LongerThan(Some(t), n)
  {
    assert JsTrim(t) == t;
  }

  /** Whitespace alone never enables grading. */
  lemma BlankTextCannotGrade(t: string, n: nat)
    requires forall i :: 0 <= i < |t| ==> IsJsSpace(t[i])
    ensures !LongerThan(Some(t), n)
  {
    StripEmpty(t, IsJsSpace);
  }

  const GRADE_FAILED: string := "Grade failed"

  /** The request the form starts with. */
  const DEFAULT_REQUEST: GradeRequest := GradeRequest(
    Some("Suma"), Some("AI Engineer"), Some("https://github.com/<your-handle>"),
    Some("Focus on GenAI + MLOps + AWS"), Some(""))

  /** The form starts with an empty text, yet Grade is enabled at once: the
      placeholder URL is long enough. */
  lemma DefaultRequestCanGrade()
    ensures !LongerThan(DEFAULT_REQUEST.contentText, 20)
    ensures CanGrade(DEFAULT_REQUEST)
  {
    var url := DEFAULT_REQUEST.portfolioUrl.value;
    assert url[0] == 'h' && url[|url| - 1] == '>';
    UntrimmedLongEnough(url, 5);
  }

  /** The request fields the text inputs edit. */
  datatype Field = CandidateName | TargetRole | PortfolioUrl | Notes | ContentText

  class PortfolioScreen {
    var req: GradeRequest
    var busy: bool
    var error: Option<string>
    var res: Option<GradeResponse>

    constructor (initial: GradeRequest)
      ensures req == initial && !busy && error.None? && res.None?
    {
      req := initial;
      busy := false;
      error := None;
      res := None;
    }

    /** The Grade button is enabled when idle and `canGrade` holds; Clear
        when idle. */
    predicate GradeEnabled()
      reads this
    {
      !busy && CanGrade(req)
    }

    predicate ClearEnabled()
      reads this
    {
      !busy
    }

    /** `setField` from a text input: the field holds what was typed. */
    method SetField(f: Field, value: string)
      modifies this
      ensures req == match f
        case CandidateName => old(req).(candidateName := Some(value))
        case TargetRole => old(req).(targetRole := Some(value))
        case PortfolioUrl => old(req).(portfolioUrl := Some(value))
        case Notes => old(req).(notes := Some(value))
        case ContentText => old(req).(contentText := Some(value))
      ensures busy == old(busy) && error == old(error) && res == old(res)
    {
      match f
      case CandidateName => req := req.(candidateName := Some(value));
      case TargetRole => req := req.(targetRole := Some(value));
      case PortfolioUrl => req := req.(portfolioUrl := Some(value));
      case Notes => req := req.(notes := Some(value));
      case ContentText => req := req.(contentText := Some(value));
    }

    /** `onGrade`, up to the call. */
    method OnGrade()
      requires GradeEnabled()
      modifies this
      ensures busy && !GradeEnabled() && !ClearEnabled()
      ensures error.None? && req == old(req) && res == old(res)
    {
      error := None;
      busy := true;
    }

    /** The grade arrives and replaces the shown report. */
    method GradeSucceeded(out: GradeResponse)
      requires busy
      modifies this
      ensures !busy && res == Some(out)
      ensures error == old(error) && req == old(req)
    {
      res := Some(out);
      busy := false;
    }

    /** The call fails: an error is shown and the previous report kept. */
    method GradeFailed(message: Option<string>)
      requires busy
      modifies this
      ensures !busy && error == Some(MessageOr(message, GRADE_FAILED)) && error.value != ""
      ensures res == old(res) && req == old(req)
    {
      error := Some(MessageOr(message, GRADE_FAILED));
      busy := false;
    }

    /** Clear Results. */
    method Clear()
      requires ClearEnabled()
      modifies this
      ensures res.None?
      ensures busy == old(busy) && error == old(error) && req == old(req)
    {
      res := None;
    }
  }
}
