/**
 * The optimise-content page (app/optimize-content/page.tsx): proceeding sends
 * the content to the backend, the outcome fills the output view or the error,
 * and "back" returns to the input form. The backend call is an `Outcome`
 * delivered by `Settled`.
 */
module OptimizeContentPage {
  import opened Wrappers
  import opened Outcomes
  import opened User
  import opened Api
  import opened OptimizeContentOutput

  const OptimizeFailed := "Failed to optimize content. Please try again."

  /** The page's state fields. */
  datatype PageState = PageState(
    showOutput: bool,
    originalContent: string,
    optimizedData: Option<OptimizeContentResponse>,
    isLoading: bool,
    error: Option<string>)

  const Initial := PageState(false, "", None, false, None)

  /** `handleProceed` up to the request: the content is recorded, loading starts and the error is cleared. */
  function Proceed(s: PageState, content: string): (t: PageState)
    ensures t.originalContent == content && t.isLoading && t.error == None
    ensures t.showOutput == s.showOutput && t.optimizedData == s.optimizedData
  {
    s.(originalContent := content, isLoading := true, error := None)
  }

  /**
   * The rest of `handleProceed`: a response fills the output view and shows
   * it; a failure records its message, or the fallback, and leaves the view
   * as it was. Loading ends either way.
   */
  function Settle(s: PageState, outcome: Outcome<OptimizeContentResponse>): (t: PageState)
    ensures !t.isLoading && t.originalContent == s.originalContent
    ensures outcome.Resolved? ==> t.optimizedData == Some(outcome.value) && t.showOutput && t.error == s.error
    ensures outcome.Rejected? ==> t.error == Some(ErrorText(outcome.thrown, OptimizeFailed))
    ensures outcome.Rejected? ==> t.optimizedData == s.optimizedData && t.showOutput == s.showOutput
  {
    match outcome
    case Resolved(response) => s.(optimizedData := Some(response), showOutput := true, isLoading := false)
    case Rejected(thrown) => s.(error := Some(ErrorText(thrown, OptimizeFailed)), isLoading := false)
  }

  /** `onBack`: the output is hidden and its data and any error dropped. */
  function Back(s: PageState): (t: PageState)
    ensures !t.showOutput && t.optimizedData == None && t.error == None
    ensures t.originalContent == s.originalContent && t.isLoading == s.isLoading
  {
    s.(showOutput := false, optimizedData := None, error := None)
  }

  /** What the page shows: the input form, or the output view for the recorded content. */
  datatype Screen =
    | InputForm(isLoading: bool, error: Option<string>)
    | Output(originalContent: string, view: OutputView)

  function Render(s: PageState): (screen: Screen)
    ensures screen.InputForm? <==> !s.showOutput
    ensures screen.InputForm? ==> screen.isLoading == s.isLoading && screen.error == s.error
    ensures screen.Output? ==> screen.originalContent == s.originalContent
    ensures screen.Output? ==> (screen.view.NoDataFallback? <==> s.optimizedData.None?)
  {
    if !s.showOutput then InputForm(s.isLoading, s.error)
    else Output(s.originalContent, OptimizeContentOutput.Render(s.optimizedData))
  }

  /** A successful round trip shows the output for the submitted content, with no error and nothing loading. */
  lemma ProceedThenSucceed(s: PageState, content: string, response: OptimizeContentResponse)
    ensures var t := Settle(Proceed(s, content), Resolved(response));
      Render(t) == Output(content, OptimizeContentOutput.Render(Some(response))) && t.error == None && !t.isLoading
  {
  }

  /** A failed request from the input form stays on the input form and shows the error. */
  lemma ProceedThenFail(s: PageState, content: string, thrown: Thrown)
    requires !s.showOutput
    ensures Render(Settle(Proceed(s, content), Rejected(thrown)))
         == InputForm(false, Some(ErrorText(thrown, OptimizeFailed)))
  {
  }

  /** Back after a success returns to a clean input form. */
  lemma BackAfterSuccess(s: PageState, content: string, response: OptimizeContentResponse)
    ensures Render(Back(Settle(Proceed(s, content), Resolved(response)))) == InputForm(false, None)
  {
  }

  /** The page with its state held in fields, as React holds it. */
  class Page {
    var showOutput: bool
    var originalContent: string
    var optimizedData: Option<OptimizeContentResponse>
    var isLoading: bool
    var error: Option<string>

    function State(): PageState
      reads this
    {
      PageState(showOutput, originalContent, optimizedData, isLoading, error)
    }

    constructor ()
      ensures State() == Initial
    {
      showOutput := false;
      originalContent := "";
      optimizedData := None;
      isLoading := false;
      error := None;
    }

    /** `handleProceed` up to the await: returns the request, whose user is whatever `getUserId()` returns. */
    method StartProceed(content: string, store: UserStore) returns (request: OptimizeContentRequest)
      modifies this, store
      ensures State() == Proceed(old(State()), content)
      ensures request == OptimizeContentRequest(UserIdOf(store.hasWindow, old(store.storage)), content)
      ensures store.storage == StorageAfterGet(store.hasWindow, old(store.storage))
    {
      originalContent := content;
      isLoading := true;
      error := None;
      var userId := store.GetUserId();
      request := OptimizeContentRequest(userId, content);
    }

    /** The awaited response or the caught error, then the `finally`. */
    method Settled(outcome: Outcome<OptimizeContentResponse>)
      modifies this
      ensures State() == Settle(old(State()), outcome)
    {
      match outcome {
        case Resolved(response) =>
          optimizedData := Some(response);
          showOutput := true;
        case Rejected(thrown) =>
          error := Some(ErrorText(thrown, OptimizeFailed));
      }
      isLoading := false;
    }

    /** The output view's `onBack`. */
    method OnBack()
      modifies this
      ensures State() == Back(old(State()))
    {
      showOutput := false;
      optimizedData := None;
      error := None;
    }
  }
}
