/**
 * The AI-visibility report (components/url-audit/EvaluatePageView.tsx):
 * scores clamped to [0, 100], their colour bands, the visibility-level pill,
 * the parameter cards ranked by clamped score, and which screen is drawn.
 */
module EvaluatePageView {
  import opened Wrappers
  import opened Api
  import opened Sorting
  import opened Accordion

  /** `clampScore`: NaN counts as 0, everything else is clamped to [0, 100]. */
  function ClampScore(score: JsNumber): (s: real)
    ensures 0.0 <= s <= 100.0
    ensures score.NaN? || score.NegInf? ==> s == 0.0
    ensures score.PosInf? ==> s == 100.0
    ensures score.Finite? && 0.0 <= score.value <= 100.0 ==> s == score.value
    ensures score.Finite? && score.value < 0.0 ==> s == 0.0
    ensures score.Finite? && score.value > 100.0 ==> s == 100.0
  {
    match score
    case NaN => 0.0
    case PosInf => 100.0
    case NegInf => 0.0
    case Finite(x) => if x < 0.0 then 0.0 else if x > 100.0 then 100.0 else x
  }

  /** Clamping a clamped score changes nothing. */
  lemma ClampIdempotent(score: JsNumber)
    ensures ClampScore(Finite(ClampScore(score))) == ClampScore(score)
  {
  }

  /** Clamping never reverses the order of two finite scores. */
  lemma ClampMonotone(low: real, high: real)
    requires low <= high
    ensures ClampScore(Finite(low)) <= ClampScore(Finite(high))
  {
  }

  /** A few values the report can receive. */
  lemma ClampExamples()
    ensures ClampScore(Finite(-5.0)) == 0.0
    ensures ClampScore(Finite(140.0)) == 100.0
    ensures ClampScore(Finite(72.5)) == 72.5
    ensures ClampScore(NaN) == 0.0
  {
  }

  const Green := "bg-green-500"
  const Yellow := "bg-yellow-500"
  const Red := "bg-red-500"

  /** `scoreColor`: the bar colour of the clamped score, green from 85 and yellow from 70. */
  function ScoreColor(score: JsNumber): (color: string)
    ensures color == Green <==> ClampScore(score) >= 85.0
    ensures color == Yellow <==> 70.0 <= ClampScore(score) < 85.0
    ensures color == Red <==> ClampScore(score) < 70.0
  {
    var s := ClampScore(score);
    if s >= 85.0 then Green else if s >= 70.0 then Yellow else Red
  }

  /** Colouring an already clamped score gives the colour of the raw one, as the card and the summary both do. */
  lemma ScoreColorOfClamped(score: JsNumber)
    ensures ScoreColor(Finite(ClampScore(score))) == ScoreColor(score)
  {
    ClampIdempotent(score);
  }

  /** The pill and dot classes of a visibility level. */
  datatype LevelStyle = LevelStyle(pill: string, dot: string)

  const HighStyle := LevelStyle("bg-green-100 text-green-700 border-green-200", "bg-green-500")
  const MediumStyle := LevelStyle("bg-yellow-100 text-yellow-800 border-yellow-200", "bg-yellow-500")
  const LowStyle := LevelStyle("bg-red-100 text-red-700 border-red-200", "bg-red-500")

  /** `levelStyles`: HIGH is green, MEDIUM yellow, and LOW or anything else red. */
  function LevelStyles(level: string): (style: LevelStyle)
    ensures style == HighStyle <==> level == "HIGH"
    ensures style == MediumStyle <==> level == "MEDIUM"
    ensures style == LowStyle <==> level != "HIGH" && level != "MEDIUM"
  {
    if level == "HIGH" then HighStyle
    else if level == "MEDIUM" then MediumStyle
    else LowStyle
  }

  /** The sort key of a parameter: its clamped score. */
  function ParamKey(p: ParameterScore): real
  {
    ClampScore(p.score)
  }

  /**
   * `sortedParams`: a sorted copy of the parameter scores, highest clamped
   * score first, or nothing without data or without parameter scores.
   */
  function SortedParams(data: Option<EvaluatePageResponse>): seq<ParameterScore>
  {
    if data.None? || data.value.parameterScores.None? then []
    else SortDesc(data.value.parameterScores.value, ParamKey)
  }

  /**
   * The ranking is a permutation of the parameter scores, non-increasing in
   * clamped score, and parameters with equal clamped scores keep their order.
   */
  lemma SortedParamsSpec(data: EvaluatePageResponse, k: real)
    requires data.parameterScores.Some?
    ensures multiset(SortedParams(Some(data))) == multiset(data.parameterScores.value)
    ensures SortedDesc(SortedParams(Some(data)), ParamKey)
    ensures WithKey(SortedParams(Some(data)), ParamKey, k) == WithKey(data.parameterScores.value, ParamKey, k)
  {
    var ps := data.parameterScores.value;
    SortPermutation(ps, ParamKey);
    SortSorted(ps, ParamKey);
    SortStable(ps, ParamKey, k);
  }

  /** Without parameter scores there is nothing to rank. */
  lemma SortedParamsMissing(data: Option<EvaluatePageResponse>)
    requires data.None? || data.value.parameterScores.None?
    ensures SortedParams(data) == []
  {
  }

  /** A list the report draws only when it has entries (`(xs?.length ?? 0) > 0`). */
  function ListToShow(xs: Option<seq<string>>): (shown: seq<string>)
    ensures shown != [] <==> xs.Some? && |xs.value| > 0
    ensures shown != [] ==> shown == xs.value
  {
    if xs.Some? && |xs.value| > 0 then xs.value else []
  }

  /** One parameter card as drawn. */
  datatype ParamCard = ParamCard(
    parameter: string,
    score: real,
    barColor: string,
    isOpen: bool,
    justification: string,
    blockingIssues: seq<string>,
    recommendedFixes: seq<string>)

  function Card(p: ParameterScore, isOpen: bool): (card: ParamCard)
    ensures card.score == ClampScore(p.score) && card.barColor == ScoreColor(p.score)
    ensures card.isOpen == isOpen
    ensures card.blockingIssues == ListToShow(p.blockingIssues)
    ensures card.recommendedFixes == ListToShow(p.recommendedFixes)
  {
    var s := ClampScore(p.score);
    ScoreColorOfClamped(p.score);
    ParamCard(p.parameter, s, ScoreColor(Finite(s)), isOpen, p.justification,
              ListToShow(p.blockingIssues), ListToShow(p.recommendedFixes))
  }

  datatype EvaluateScreen =
    | Loading
    | ErrorBanner(message: string)
    | Nothing
    | Report(
        levelText: string,
        level: LevelStyle,
        overall: real,
        overallColor: string,
        primaryBlockers: seq<string>,
        cards: seq<ParamCard>)

  /**
   * Loading wins over an error, an error over the report, and without data
   * nothing is drawn. The report shows the clamped overall score and one card
   * per ranked parameter, only the card at `openParam` expanded.
   */
  function Render(data: Option<EvaluatePageResponse>, isLoading: bool, error: Option<string>, openParam: Option<nat>)
    : (screen: EvaluateScreen)
    ensures screen.Loading? <==> isLoading
    ensures screen.ErrorBanner? <==> !isLoading && Truthy(error)
    ensures screen.Nothing? <==> !isLoading && !Truthy(error) && data.None?
    ensures screen.Report? ==> data.Some?
    ensures screen.Report? ==> screen.overall == ClampScore(data.value.summary.overallVisibilityScore)
    ensures screen.Report? ==> screen.overallColor == ScoreColor(data.value.summary.overallVisibilityScore)
    ensures screen.Report? ==> screen.level == LevelStyles(data.value.summary.visibilityLevel)
    ensures screen.Report? ==> screen.primaryBlockers == ListToShow(data.value.summary.primaryBlockers)
    ensures screen.Report? ==> |screen.cards| == |SortedParams(data)|
    ensures screen.Report? ==> forall i :: 0 <= i < |screen.cards| ==>
              screen.cards[i] == Card(SortedParams(data)[i], IsOpen(openParam, i))
  {
    if isLoading then Loading
    else if Truthy(error) then ErrorBanner(error.value)
    else if data.None? then Nothing
    else
      var summary := data.value.summary;
      var overall := ClampScore(summary.overallVisibilityScore);
      ScoreColorOfClamped(summary.overallVisibilityScore);
      var params := SortedParams(data);
      var flags := OpenFlags(openParam, |params|);
      Report(summary.visibilityLevel, LevelStyles(summary.visibilityLevel), overall, ScoreColor(Finite(overall)),
             ListToShow(summary.primaryBlockers),
             seq(|params|, i requires 0 <= i < |params| => Card(params[i], flags[i])))
  }

  /** The cards of a report are in non-increasing order of their displayed score. */
  lemma ReportCardsRanked(data: EvaluatePageResponse, openParam: Option<nat>)
    ensures var screen := Render(Some(data), false, None, openParam);
      forall i, j :: 0 <= i < j < |screen.cards| ==> screen.cards[i].score >= screen.cards[j].score
  {
    if data.parameterScores.Some? {
      SortSorted(data.parameterScores.value, ParamKey);
    }
  }

  /** The open parameter card, as the view keeps it. */
  class ParamAccordion {
    var openParam: Option<nat>

    constructor ()
      ensures openParam == None
    {
      openParam := None;
    }

    /** A click on card `i`. */
    method ToggleParam(i: nat)
      modifies this
      ensures openParam == Toggle(old(openParam), i)
    {
      openParam := if openParam == Some(i) then None else Some(i);
    }
  }
}
