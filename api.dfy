/**
 * The request and response shapes the client exchanges with the backend
 * (the interfaces of lib/api.ts). Only the fields the modelled views read
 * are kept; the HTTP calls themselves are outcomes delivered to the views.
 */
module Api {
  import opened Wrappers

  /** A JavaScript number where its special values matter: NaN and the infinities. */
  datatype JsNumber = NaN | PosInf | NegInf | Finite(value: real)

  /** `SEOIssuesRequest`: the payload every audit call sends. */
  datatype SEOIssuesRequest = SEOIssuesRequest(url: string, primaryKeyword: string, secondaryKeyword: string)

  /** One audit check (`Check`); the optional fields may be absent from the JSON. */
  datatype Check = Check(
    order: real,
    title: string,
    description: Option<string>,
    pass: bool,
    severity: Option<string>,
    seoCheck: bool,
    geoCheck: bool,
    seoSeverity: Option<string>,
    geoSeverity: Option<string>)

  datatype SEOIssuesResponse = SEOIssuesResponse(seoScore: real, geoScore: real, checks: seq<Check>)

  datatype RawHTMLResponse = RawHTMLResponse(html: string)

  datatype OverviewResponse = OverviewResponse(pageTitle: string, metaDescription: string, contentWordCount: int)

  /** One entry of the competitors response (`CompetitorApiResponse`). */
  datatype CompetitorApiResponse = CompetitorApiResponse(seoScore: real, geoScore: real, url: string, fetchResponse: bool)

  /** A competitor as the competitors tab shows it (`Competitor`). */
  datatype Competitor = Competitor(position: int, domain: string, url: string, seoScore: real, geoScore: real)

  datatype FAQItem = FAQItem(question: string, answer: string)

  datatype FAQResponse = FAQResponse(extractedFaqs: seq<FAQItem>, generatedFaqs: seq<FAQItem>)

  /** One audit in the history (`SEOHistoryItem`); `createdAt` is given as its timestamp. */
  datatype SEOHistoryItem = SEOHistoryItem(pageTitle: string, createdAt: int, seoScore: real, geoScore: real)

  datatype LLMVisibilitySummary = LLMVisibilitySummary(
    overallVisibilityScore: JsNumber,
    visibilityLevel: string,
    primaryBlockers: Option<seq<string>>)

  datatype ParameterScore = ParameterScore(
    parameter: string,
    score: JsNumber,
    justification: string,
    blockingIssues: Option<seq<string>>,
    recommendedFixes: Option<seq<string>>)

  datatype EvaluatePageResponse = EvaluatePageResponse(
    summary: LLMVisibilitySummary,
    parameterScores: Option<seq<ParameterScore>>)

  datatype PageContext = PageContext(
    url: string,
    pageType: string,
    primaryKeyword: string,
    geoContext: string,
    industry: string)

  datatype EvaluatePageRequest = EvaluatePageRequest(pageContext: PageContext, pageContent: string)

  /** The backend's optimised content (`OptimizeContentResponse`). */
  datatype OptimizeContentResponse = OptimizeContentResponse(
    title: string,
    metaDescription: string,
    h1: string,
    tableOfContents: seq<string>,
    h2Headings: seq<string>,
    h3Headings: seq<string>,
    content: string,
    faqs: seq<FAQItem>,
    schemaMarkup: string)

  /** The payload of the optimise-content call (`OptimizeContentRequest`). */
  datatype OptimizeContentRequest = OptimizeContentRequest(user: string, content: string)
}
