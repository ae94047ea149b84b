/**
 * The data shared by the front end: the wire records the analysis service
 * returns (after schema validation), the UI records the pages render, and
 * the two enumerations of page and progress state.
 */
module Types {
  import opened Results

  /** Where the page is in one analysis round trip: "idle" | "loading" | "success" | "error". */
  datatype AnalysisState = Idle | Loading | Success | Error {
    function Label(): string {
      match this
      case Idle => "idle"
      case Loading => "loading"
      case Success => "success"
      case Error => "error"
    }
  }

  /** The five simulated stages of an analysis: "mask" | "pillars" | "questions" | "models" | "evaluate". */
  datatype ProgressStep = Mask | Pillars | Questions | Models | Evaluate {
    function Label(): string {
      match this
      case Mask => "mask"
      case Pillars => "pillars"
      case Questions => "questions"
      case Models => "models"
      case Evaluate => "evaluate"
    }
  }

  /** Whether the service ran with canned ("stub") or real ("live") models. */
  datatype Mode = Stub | Live {
    function Label(): string {
      match this
      case Stub => "stub"
      case Live => "live"
    }
  }

  /** The only strings accepted as a mode: exactly the two labels. */
  function ModeFromLabel(s: string): (r: Option<Mode>)
    ensures r.Some? ==> r.value.Label() == s
    ensures forall m: Mode :: m.Label() == s ==> r == Some(m)
  {
    if s == "stub" then Some(Stub) else if s == "live" then Some(Live) else None
  }

  /** Each enumeration has exactly its listed values, and their labels are distinct. */
  lemma EnumerationsAreExact()
    ensures forall s: AnalysisState :: s in [Idle, Loading, Success, Error]
    ensures forall s: AnalysisState, t: AnalysisState :: s.Label() == t.Label() ==> s == t
    ensures forall p: ProgressStep :: p in [Mask, Pillars, Questions, Models, Evaluate]
    ensures forall p: ProgressStep, q: ProgressStep :: p.Label() == q.Label() ==> p == q
  {
    forall s: AnalysisState ensures s in [Idle, Loading, Success, Error] {
      match s
      case Idle =>
      case Loading =>
      case Success =>
      case Error =>
    }
    forall p: ProgressStep ensures p in [Mask, Pillars, Questions, Models, Evaluate] {
      match p
      case Mask =>
      case Pillars =>
      case Questions =>
      case Models =>
      case Evaluate =>
    }
  }

  // ---------------------------------------------------------------- wire side

  /** `summary`: counts as reported by the service (`total_questions`, `ai_provider_recognized_in`). */
  datatype ApiSummary = ApiSummary(totalQuestions: int, recognizedIn: int)

  /** `metadata`: `client_name` is always present but may be null (`None`). */
  datatype ApiMetadata = ApiMetadata(
    clientName: Option<string>,
    providerName: string,
    modelsRun: seq<string>,
    mode: Mode)

  /** One model's answer; both inference flags (`inferred`, `ai_provider_inferred`) are optional. */
  datatype QuestionResponse = QuestionResponse(
    model: string,
    answer: string,
    inferred: Option<bool>,
    aiProviderInferred: Option<bool>)

  /** A question as validated; the optional members stay optional for callers that build one directly. */
  datatype QuestionEntry = QuestionEntry(
    prompt: string,
    category: string,
    kind: string,
    aiProviderInferred: Option<bool>,
    id: Option<string>,
    assumptions: Option<seq<string>>,
    responses: Option<seq<QuestionResponse>>)

  /** A selling point (pillar) as validated: both `title` and `pillar` are optional names. */
  datatype SellingPoint = SellingPoint(
    title: Option<string>,
    pillar: Option<string>,
    summary: Option<string>,
    aiProviderInferred: Option<bool>,
    questions: Option<seq<QuestionEntry>>)

  /**
   * The canonical response. `sellingPoints` is the `selling_points` list,
   * `camelSellingPoints` the `sellingPoints` list the validator also keeps,
   * `pillars` the fallback list; all three are optional.
   */
  datatype ApiResponse = ApiResponse(
    storyId: string,
    summary: ApiSummary,
    sellingPoints: Option<seq<SellingPoint>>,
    camelSellingPoints: Option<seq<SellingPoint>>,
    pillars: Option<seq<SellingPoint>>,
    metadata: ApiMetadata)

  // ------------------------------------------------------------------ UI side

  datatype UISummary = UISummary(totalQuestions: int, aiProviderRecognizedIn: int)

  datatype UIMetadata = UIMetadata(clientName: Option<string>, providerName: string, mode: Mode)

  /** A response with its inference flag resolved to a plain boolean. */
  datatype UIResponse = UIResponse(model: string, answer: string, inferred: bool)

  /** A question ready to render; `assumptions` and `id` are passed through as they came. */
  datatype QuestionDetail = QuestionDetail(
    prompt: string,
    category: string,
    kind: string,
    aiProviderInferred: bool,
    assumptions: Option<seq<string>>,
    id: Option<string>,
    responses: seq<UIResponse>)

  datatype PillarResult = PillarResult(
    title: string,
    summary: string,
    aiProviderInferred: bool,
    questions: seq<QuestionDetail>)

  datatype UIResult = UIResult(
    storyId: string,
    summary: UISummary,
    models: seq<string>,
    pillars: seq<PillarResult>,
    metadata: UIMetadata)
}
