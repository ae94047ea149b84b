/**
 * The analysis page: its default alias list, the state changes of one
 * analysis round trip (`runAnalysis`, the outcome of the request,
 * `handleRetry`), which panels it shows, and the export file name. The
 * request itself is a parameter: its outcome is given to `Finish`.
 */
module Page {
  import opened Results
  import opened Types
  import Text
  import InputSection
  import AliasDefaults
  import SimulatedProgress
  import Json
  import Normalize
  import Pipeline

  // ---------------------------------------------------------- page state

  /** `AnalyzeRequestPayload`: what one analysis sends. */
  datatype AnalyzeRequest = AnalyzeRequest(text: string, providerName: string, providerAliases: seq<string>)

  /** The page's state, with the progress hook it drives. */
  datatype PageState = PageState(
    text: string,
    providerName: string,
    aliases: seq<string>,
    analysis: AnalysisState,
    errorMessage: Option<string>,
    result: Option<UIResult>,
    progress: SimulatedProgress.Hook)

  /** The first render. */
  function InitialPage(configuredName: Option<string>, configuredAliases: Option<string>): (s: PageState)
    ensures s.analysis == Idle && s.text == "" && s.errorMessage.None? && s.result.None?
    ensures s.aliases == AliasDefaults.DefaultProviderAliases(configuredAliases)
    ensures s.providerName == configuredName.GetOr("OpenAI")
    ensures s.progress == SimulatedProgress.Mount(false)
  {
    PageState("", AliasDefaults.DefaultProviderName(configuredName), AliasDefaults.DefaultProviderAliases(configuredAliases),
              Idle, None, None, SimulatedProgress.Mount(false))
  }

  /** A new analysis state; the progress hook follows `analysisState === "loading"`. */
  function WithAnalysis(s: PageState, a: AnalysisState): (r: PageState)
    ensures r == s.(analysis := a, progress := r.progress)
    ensures r.progress.active <==> a == Loading
  {
    s.(analysis := a, progress := SimulatedProgress.SetActive(s.progress, a == Loading))
  }

  /** The message shown for a blank transcript. */
  const EmptyTranscript := "Transcript cannot be empty"

  /** The message shown when something other than an `Error` is thrown. */
  const UnexpectedError := "Unexpected error while analyzing transcript"

  /**
   * `runAnalysis` up to the request: a blank transcript is an error and
   * sends nothing; otherwise the page is loading, the error is cleared and
   * the request carries the text, provider name and aliases.
   */
  function RunAnalysis(s: PageState): (r: (PageState, Option<AnalyzeRequest>))
    ensures r.1.None? <==> !InputSection.CanSubmit(s.text, false)
    ensures r.1.None? ==> r.0.analysis == Error && r.0.errorMessage == Some(EmptyTranscript) && r.0.result == s.result
    ensures r.1.Some? ==> (r.0.analysis == Loading && r.0.errorMessage.None? && r.0.result == s.result
                           && r.1.value == AnalyzeRequest(s.text, s.providerName, s.aliases))
  {
    if Text.Trim(s.text) == [] then
      (WithAnalysis(s, Error).(errorMessage := Some(EmptyTranscript)), None)
    else
      (WithAnalysis(s, Loading).(errorMessage := None), Some(AnalyzeRequest(s.text, s.providerName, s.aliases)))
  }

  /** What the request threw: an `Error` with its message, or any other value. */
  datatype Thrown = ErrorObject(message: string) | OtherValue

  /** How the request ended. */
  datatype Outcome = Fetched(value: UIResult) | Threw(thrown: Thrown)

  /**
   * The end of `runAnalysis`. On success `complete` runs, the result is
   * stored and the page succeeds; on failure the page errs, the result is
   * cleared and the message is the error's (or the fallback).
   */
  function Finish(s: PageState, outcome: Outcome): (r: PageState)
    ensures outcome.Fetched? ==> r.analysis == Success && r.result == Some(outcome.value) && r.errorMessage == s.errorMessage
    ensures outcome.Threw? ==> r.analysis == Error && r.result.None?
    ensures outcome == Threw(OtherValue) ==> r.errorMessage == Some(UnexpectedError)
    ensures outcome.Threw? && outcome.thrown.ErrorObject? ==> r.errorMessage == Some(outcome.thrown.message)
    ensures r.text == s.text && r.providerName == s.providerName && r.aliases == s.aliases
  {
    match outcome
    case Fetched(v) =>
      var completed := s.(progress := SimulatedProgress.Complete(s.progress));
      WithAnalysis(completed.(result := Some(v)), Success)
    case Threw(e) =>
      var message := match e
        case ErrorObject(m) => m
        case OtherValue => UnexpectedError;
      WithAnalysis(s, Error).(result := None, errorMessage := Some(message))
  }

  /** `handleRetry`: back to idle with the message cleared; the last result is kept. */
  function HandleRetry(s: PageState): (r: PageState)
    ensures r.analysis == Idle && r.errorMessage.None?
    ensures r.result == s.result && r.text == s.text && r.aliases == s.aliases
  {
    WithAnalysis(s, Idle).(errorMessage := None)
  }

  // ------------------------------------------------------------- panels

  /** A string is truthy when it is not empty. */
  predicate Truthy(m: Option<string>) {
    m.Some? && m.value != ""
  }

  /** The progress panel: shown whenever an analysis has started. */
  predicate ShowProgress(s: PageState) {
    s.analysis != Idle
  }

  /** The error panel: only below a started analysis, and never together with results. */
  predicate ShowError(s: PageState): (b: bool)
    ensures b ==> ShowProgress(s) && s.errorMessage.Some? && s.errorMessage.value != ""
  {
    s.analysis == Error && Truthy(s.errorMessage)
  }

  /** The results panel: only below a started analysis, and never together with an error. */
  predicate ShowResults(s: PageState): (b: bool)
    ensures b ==> ShowProgress(s) && !ShowError(s) && s.result.Some?
  {
    s.analysis == Success && s.result.Some?
  }

  /** The empty state: shown only when no other panel is. */
  predicate ShowEmptyState(s: PageState): (b: bool)
    ensures b ==> !ShowProgress(s) && !ShowError(s) && !ShowResults(s)
  {
    s.analysis == Idle && s.text == ""
  }

  /** `handleExport`: nothing without a result, else a file named after the story. */
  function ExportFileName(s: PageState): (name: Option<string>)
    ensures name.None? <==> s.result.None?
    ensures name.Some? ==> name.value == "analysis-" + s.result.value.storyId + ".json"
  {
    match s.result
    case None => None
    case Some(r) => Some("analysis-" + r.storyId + ".json")
  }

  // ---------------------------------------------------------- invariants

  /** The states the page can be in. */
  predicate Reachable(s: PageState) {
    && SimulatedProgress.Valid(s.progress)
    && (s.progress.active <==> s.analysis == Loading)
    && (s.analysis == Success ==> s.result.Some?)
    && (s.analysis == Error ==> s.errorMessage.Some?)
    && (s.analysis == Loading ==> s.errorMessage.None?)
  }

  /** Every change keeps the page in a reachable state, and success always shows the results. */
  lemma ReachablePreserved(s: PageState, outcome: Outcome, v: UIResult)
    requires Reachable(s)
    ensures Reachable(RunAnalysis(s).0)
    ensures Reachable(Finish(s, outcome))
    ensures Reachable(HandleRetry(s))
    ensures ShowResults(Finish(s, Fetched(v)))
  {
    var h := s.progress;
    SimulatedProgress.ValidPreserved(h, true);
    SimulatedProgress.ValidPreserved(h, false);
    SimulatedProgress.ValidPreserved(SimulatedProgress.Complete(h), false);
    assert Reachable(RunAnalysis(s).0);
    assert Reachable(Finish(s, outcome)) by {
      match outcome
      case Fetched(_) =>
      case Threw(_) =>
    }
    assert Reachable(HandleRetry(s));
  }

  lemma InitialReachable(configuredName: Option<string>, configuredAliases: Option<string>)
    ensures Reachable(InitialPage(configuredName, configuredAliases))
    ensures ShowEmptyState(InitialPage(configuredName, configuredAliases))
    ensures !ShowProgress(InitialPage(configuredName, configuredAliases))
  {
  }

  /** A blank transcript shows its error at once and sends nothing. */
  lemma BlankTranscriptShowsError(s: PageState)
    requires Text.AllSpace(s.text)
    ensures RunAnalysis(s).1.None? && ShowError(RunAnalysis(s).0) && ShowProgress(RunAnalysis(s).0)
  {
  }

  /**
   * After a successful request the progress bar is not left at 100%: leaving
   * the loading state re-runs the hook's effect, which resets the report
   * `complete` has just set to `(0, "mask")`.
   */
  lemma SuccessResetsProgress(s: PageState, v: UIResult)
    requires Reachable(s) && s.analysis == Loading
    ensures Finish(s, Fetched(v)).progress.progress == SimulatedProgress.Initial
    ensures ShowProgress(Finish(s, Fetched(v))) && ShowResults(Finish(s, Fetched(v)))
  {
  }

  /** How a response body ends the request: the analysed result, or the error the pipeline raised. */
  function OutcomeOfBody(raw: Json.Json): (o: Outcome)
    ensures o.Fetched? <==> Pipeline.Analyze(raw).Ok?
    ensures o.Fetched? ==> o.value == Pipeline.Analyze(raw).value
    ensures o.Threw? ==> o.thrown == ErrorObject(Normalize.UnexpectedFormat)
  {
    match Pipeline.Analyze(raw)
    case Ok(v) => Fetched(v)
    case Err(m) => Threw(ErrorObject(m))
  }

  /** A body the validator rejects ends in the error panel with the fixed format message. */
  lemma MalformedBodyShowsFormatError(s: PageState, raw: Json.Json)
    requires Normalize.ParseEnvelope(raw).Err?
    ensures Finish(s, OutcomeOfBody(raw)).errorMessage == Some(Normalize.UnexpectedFormat)
    ensures ShowError(Finish(s, OutcomeOfBody(raw)))
    ensures Finish(s, OutcomeOfBody(raw)).result.None?
  {
  }
}
