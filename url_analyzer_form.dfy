/**
 * The URL analyser form (components/url-audit/URLAnalyzerForm.tsx): a submit
 * with a URL and two keywords fetches the SEO issues, the raw HTML and the
 * overview together and shows the audit only when all three arrive.
 */
module URLAnalyzerForm {
  import opened Wrappers
  import opened Text
  import opened Outcomes
  import opened Api

  const AuditFailed := "Failed to fetch audit data"

  /** Which of the three parallel calls; used to say whose rejection `Promise.all` reports. */
  datatype Slot = SeoIssues | RawHtml | Overview

  /** The three results together. */
  datatype AuditData = AuditData(seo: SEOIssuesResponse, rawHtml: RawHTMLResponse, overview: OverviewResponse)

  /**
   * `Promise.all` over the three calls: it resolves only when all three do.
   * Otherwise it rejects with what one of the rejected calls threw: the one
   * that fails first, which depends on timing and is given as `earliest`
   * (ignored when that call did not fail).
   */
  function JoinAll(a: Outcome<SEOIssuesResponse>, b: Outcome<RawHTMLResponse>, c: Outcome<OverviewResponse>, earliest: Slot)
    : (joined: Outcome<AuditData>)
    ensures joined.Resolved? <==> a.Resolved? && b.Resolved? && c.Resolved?
    ensures joined.Resolved? ==> joined.value == AuditData(a.value, b.value, c.value)
    ensures joined.Rejected? ==>
      (a.Rejected? && joined.thrown == a.thrown) || (b.Rejected? && joined.thrown == b.thrown)
      || (c.Rejected? && joined.thrown == c.thrown)
    ensures earliest == SeoIssues && a.Rejected? ==> joined == Rejected(a.thrown)
    ensures earliest == RawHtml && b.Rejected? ==> joined == Rejected(b.thrown)
    ensures earliest == Overview && c.Rejected? ==> joined == Rejected(c.thrown)
  {
    if earliest == SeoIssues && a.Rejected? then Rejected(a.thrown)
    else if earliest == RawHtml && b.Rejected? then Rejected(b.thrown)
    else if earliest == Overview && c.Rejected? then Rejected(c.thrown)
    else if a.Rejected? then Rejected(a.thrown)
    else if b.Rejected? then Rejected(b.thrown)
    else if c.Rejected? then Rejected(c.thrown)
    else Resolved(AuditData(a.value, b.value, c.value))
  }

  /** The form's state fields. */
  datatype FormState = FormState(
    url: string,
    geoRegion: string,
    primaryKeyword: string,
    secondaryKeyword: string,
    showResults: bool,
    seoData: Option<SEOIssuesResponse>,
    rawHtmlData: Option<RawHTMLResponse>,
    overviewData: Option<OverviewResponse>,
    isLoading: bool,
    error: Option<string>)

  const Initial := FormState("", "United States", "", "", false, None, None, None, false, None)

  /** The submit guard: the URL and both keywords are non-blank. */
  predicate CanSubmit(s: FormState) {
    !IsBlank(s.url) && !IsBlank(s.primaryKeyword) && !IsBlank(s.secondaryKeyword)
  }

  /** The submit button is disabled iff a field is blank or a request is under way. */
  predicate SubmitDisabled(s: FormState) {
    IsBlank(s.url) || IsBlank(s.primaryKeyword) || IsBlank(s.secondaryKeyword) || s.isLoading
  }

  lemma SubmitEnabledIffReady(s: FormState)
    ensures !SubmitDisabled(s) <==> CanSubmit(s) && !s.isLoading
  {
  }

  /** The payload sent to all three calls: the trimmed fields. */
  function Payload(s: FormState): (request: SEOIssuesRequest)
    ensures CanSubmit(s) ==> request.url != [] && request.primaryKeyword != [] && request.secondaryKeyword != []
  {
    SEOIssuesRequest(Trim(s.url), Trim(s.primaryKeyword), Trim(s.secondaryKeyword))
  }

  /** `handleSubmit` up to the await: nothing happens unless the guard holds; then loading starts and the error is cleared. */
  function StartSubmit(s: FormState): (t: FormState)
    ensures !CanSubmit(s) ==> t == s
    ensures CanSubmit(s) ==> t == s.(isLoading := true, error := None)
  {
    if CanSubmit(s) then s.(isLoading := true, error := None) else s
  }

  /**
   * The rest of `handleSubmit`: all three results together set the data and
   * show the audit; a failure records the message, or the fallback, and keeps
   * whatever was shown before. Loading ends either way.
   */
  function Settle(s: FormState, joined: Outcome<AuditData>): (t: FormState)
    ensures !t.isLoading
    ensures t.url == s.url && t.primaryKeyword == s.primaryKeyword && t.secondaryKeyword == s.secondaryKeyword
    ensures joined.Resolved? ==> t.showResults && t.error == s.error
    ensures joined.Resolved? ==> t.seoData == Some(joined.value.seo) && t.rawHtmlData == Some(joined.value.rawHtml)
    ensures joined.Resolved? ==> t.overviewData == Some(joined.value.overview)
    ensures joined.Rejected? ==> t.error == Some(ErrorText(joined.thrown, AuditFailed))
    ensures joined.Rejected? ==> t.showResults == s.showResults && t.seoData == s.seoData
    ensures joined.Rejected? ==> t.rawHtmlData == s.rawHtmlData && t.overviewData == s.overviewData
  {
    match joined
    case Resolved(d) =>
      s.(seoData := Some(d.seo), rawHtmlData := Some(d.rawHtml), overviewData := Some(d.overview),
         showResults := true, isLoading := false)
    case Rejected(thrown) => s.(error := Some(ErrorText(thrown, AuditFailed)), isLoading := false)
  }

  /** The audit is drawn only when it is to be shown and all three results are present. */
  predicate ShowsAudit(s: FormState) {
    s.showResults && s.seoData.Some? && s.rawHtmlData.Some? && s.overviewData.Some?
  }

  /** When all three calls succeed the audit is shown with their results, and nothing is loading or failed. */
  lemma SubmitSucceeds(s: FormState, a: SEOIssuesResponse, b: RawHTMLResponse, c: OverviewResponse, earliest: Slot)
    requires CanSubmit(s)
    ensures var t := Settle(StartSubmit(s), JoinAll(Resolved(a), Resolved(b), Resolved(c), earliest));
      ShowsAudit(t) && t.seoData == Some(a) && t.rawHtmlData == Some(b) && t.overviewData == Some(c)
      && t.error == None && !t.isLoading
  {
  }

  /** All or nothing: if any call fails, the audit shown (or not) and its data are exactly what they were. */
  lemma SubmitFailureKeepsResults(s: FormState, a: Outcome<SEOIssuesResponse>, b: Outcome<RawHTMLResponse>,
                                  c: Outcome<OverviewResponse>, earliest: Slot)
    requires CanSubmit(s)
    requires a.Rejected? || b.Rejected? || c.Rejected?
    ensures var t := Settle(StartSubmit(s), JoinAll(a, b, c, earliest));
      (ShowsAudit(t) <==> ShowsAudit(s)) && t.seoData == s.seoData && t.rawHtmlData == s.rawHtmlData
      && t.overviewData == s.overviewData && t.error.Some? && !t.isLoading
  {
  }

  /** The form with its state held in fields, as React holds it. */
  class Form {
    var url: string
    var geoRegion: string
    var primaryKeyword: string
    var secondaryKeyword: string
    var showResults: bool
    var seoData: Option<SEOIssuesResponse>
    var rawHtmlData: Option<RawHTMLResponse>
    var overviewData: Option<OverviewResponse>
    var isLoading: bool
    var error: Option<string>

    function State(): FormState
      reads this
    {
      FormState(url, geoRegion, primaryKeyword, secondaryKeyword, showResults, seoData, rawHtmlData,
                overviewData, isLoading, error)
    }

    constructor ()
      ensures State() == Initial
    {
      url := "";
      geoRegion := "United States";
      primaryKeyword := "";
      secondaryKeyword := "";
      showResults := false;
      seoData := None;
      rawHtmlData := None;
      overviewData := None;
      isLoading := false;
      error := None;
    }

    /** `handleSubmit` up to the await: returns the payload sent, or nothing when the guard fails. */
    method HandleSubmit() returns (request: Option<SEOIssuesRequest>)
      modifies this
      ensures State() == StartSubmit(old(State()))
      ensures request.Some? <==> CanSubmit(old(State()))
      ensures request.Some? ==> request.value == Payload(old(State()))
    {
      var s := State();
      if CanSubmit(s) {
        request := Some(Payload(s));
        isLoading := true;
        error := None;
        assert State() == s.(isLoading := true, error := None);
      } else {
        request := None;
      }
    }

    /** The joined outcome of the three calls, then the `finally`. */
    method Settled(joined: Outcome<AuditData>)
      modifies this
      ensures State() == Settle(old(State()), joined)
    {
      match joined {
        case Resolved(d) =>
          seoData := Some(d.seo);
          rawHtmlData := Some(d.rawHtml);
          overviewData := Some(d.overview);
          showResults := true;
        case Rejected(thrown) =>
          error := Some(ErrorText(thrown, AuditFailed));
      }
      isLoading := false;
    }
  }
}
