/**
 * The view adapter: `adaptApiResponse` with `resolvePillars` and
 * `normalizeResponses`. It is total and only renames, except that it picks
 * the authoritative pillar list and resolves each response's inference flag.
 */
module Adapter {
  import opened Results
  import opened Types

  /** Title shown for a pillar without a `pillar` name. */
  const UntitledPillar := "Untitled pillar"

  /**
   * `ai_provider_inferred ?? inferred ?? false`: the first flag wins whenever
   * it is present, even when it is false.
   */
  function ResolveInferred(r: QuestionResponse): (b: bool)
    ensures b <==> r.aiProviderInferred == Some(true) || (r.aiProviderInferred.None? && r.inferred == Some(true))
  {
    r.aiProviderInferred.GetOr(r.inferred.GetOr(false))
  }

  /** The precedence cases one by one. */
  lemma InferredPrecedence(model: string, answer: string, b: bool)
    ensures !ResolveInferred(QuestionResponse(model, answer, Some(true), Some(false)))
    ensures ResolveInferred(QuestionResponse(model, answer, Some(true), None))
    ensures !ResolveInferred(QuestionResponse(model, answer, None, None))
    ensures ResolveInferred(QuestionResponse(model, answer, Some(!b), Some(b))) == b
  {
  }

  /** `normalizeResponses`: one UI response per wire response, in order. */
  function NormalizeResponses(rs: seq<QuestionResponse>): (out: seq<UIResponse>)
    ensures |out| == |rs|
    ensures forall i :: 0 <= i < |rs| ==>
      out[i].model == rs[i].model && out[i].answer == rs[i].answer && out[i].inferred == ResolveInferred(rs[i])
  {
    seq(|rs|, i requires 0 <= i < |rs| => UIResponse(rs[i].model, rs[i].answer, ResolveInferred(rs[i])))
  }

  /**
   * `resolvePillars`: `selling_points ?? sellingPoints ?? []` when that is
   * non-empty, else `pillars ?? []`. An absent list defers to the next one,
   * but a present empty `selling_points` skips `sellingPoints`.
   */
  function ResolvePillars(d: ApiResponse): (ps: seq<SellingPoint>)
    ensures d.sellingPoints.Some? && |d.sellingPoints.value| > 0 ==> ps == d.sellingPoints.value
    ensures d.sellingPoints.None? && d.camelSellingPoints.Some? && |d.camelSellingPoints.value| > 0
      ==> ps == d.camelSellingPoints.value
    ensures ps == d.sellingPoints.GetOr([]) || ps == d.camelSellingPoints.GetOr([]) || ps == d.pillars.GetOr([])
    ensures d.sellingPoints.Some? && |d.sellingPoints.value| == 0 ==> ps == d.pillars.GetOr([])
    ensures d.sellingPoints.None? && |d.camelSellingPoints.GetOr([])| == 0 ==> ps == d.pillars.GetOr([])
  {
    var sellingPoints := d.sellingPoints.GetOr(d.camelSellingPoints.GetOr([]));
    if |sellingPoints| > 0 then sellingPoints else d.pillars.GetOr([])
  }

  function AdaptQuestion(q: QuestionEntry): (r: QuestionDetail)
    ensures r.prompt == q.prompt && r.category == q.category && r.kind == q.kind
    ensures r.aiProviderInferred <==> q.aiProviderInferred == Some(true)
    ensures r.assumptions == q.assumptions && r.id == q.id
    ensures r.responses == NormalizeResponses(q.responses.GetOr([]))
  {
    QuestionDetail(
      q.prompt, q.category, q.kind,
      q.aiProviderInferred.GetOr(false),
      q.assumptions,
      q.id,
      NormalizeResponses(q.responses.GetOr([])))
  }

  /** One pillar: the title is read from `pillar`, never from `title`. */
  function AdaptPillar(p: SellingPoint): (r: PillarResult)
    ensures p.pillar.Some? ==> r.title == p.pillar.value
    ensures p.pillar.None? ==> r.title == UntitledPillar
    ensures r.aiProviderInferred <==> p.aiProviderInferred == Some(true)
    ensures r.summary == p.summary.GetOr("")
    ensures |r.questions| == |p.questions.GetOr([])|
    ensures forall i :: 0 <= i < |r.questions| ==> r.questions[i] == AdaptQuestion(p.questions.GetOr([])[i])
  {
    var qs := p.questions.GetOr([]);
    PillarResult(
      p.pillar.GetOr(UntitledPillar),
      p.summary.GetOr(""),
      p.aiProviderInferred.GetOr(false),
      seq(|qs|, i requires 0 <= i < |qs| => AdaptQuestion(qs[i])))
  }

  function AdaptPillars(ps: seq<SellingPoint>): (r: seq<PillarResult>)
    ensures |r| == |ps|
    ensures forall i :: 0 <= i < |ps| ==> r[i] == AdaptPillar(ps[i])
  {
    seq(|ps|, i requires 0 <= i < |ps| => AdaptPillar(ps[i]))
  }

  /** `adaptApiResponse`: a renaming into the UI record, pillars taken from the resolved list. */
  function Adapt(d: ApiResponse): (r: UIResult)
    ensures r.storyId == d.storyId
    ensures r.summary.totalQuestions == d.summary.totalQuestions
    ensures r.summary.aiProviderRecognizedIn == d.summary.recognizedIn
    ensures r.models == d.metadata.modelsRun
    ensures r.metadata.clientName == d.metadata.clientName
    ensures r.metadata.providerName == d.metadata.providerName
    ensures r.metadata.mode == d.metadata.mode
    ensures r.pillars == AdaptPillars(ResolvePillars(d))
  {
    UIResult(
      d.storyId,
      UISummary(d.summary.totalQuestions, d.summary.recognizedIn),
      d.metadata.modelsRun,
      AdaptPillars(ResolvePillars(d)),
      UIMetadata(d.metadata.clientName, d.metadata.providerName, d.metadata.mode))
  }

  /** The adapter never reads a pillar's `title`: changing it changes nothing. */
  lemma TitleFieldIgnored(p: SellingPoint, t: Option<string>)
    ensures AdaptPillar(p.(title := t)) == AdaptPillar(p)
    ensures p.pillar.None? ==> AdaptPillar(p.(title := Some("Trust"))).title == UntitledPillar
  {
  }

  /**
   * The adapter's own defaults: absent booleans read as false, an absent
   * summary as "", absent questions and responses as empty lists.
   */
  lemma AdapterDefaults(title: Option<string>, pillar: Option<string>, prompt: string, category: string, kind: string)
    ensures AdaptPillar(SellingPoint(title, pillar, None, None, None)).summary == ""
    ensures !AdaptPillar(SellingPoint(title, pillar, None, None, None)).aiProviderInferred
    ensures AdaptPillar(SellingPoint(title, pillar, None, None, None)).questions == []
    ensures !AdaptQuestion(QuestionEntry(prompt, category, kind, None, None, None, None)).aiProviderInferred
    ensures AdaptQuestion(QuestionEntry(prompt, category, kind, None, None, None, None)).responses == []
  {
  }

  /**
   * The first adapter example: every value is carried over unchanged, but
   * the pillar named only by `title` ("Trust") is shown as untitled.
   */
  lemma AdaptExample()
    ensures var response := QuestionResponse("gpt-4o", "OpenAI is mentioned explicitly", Some(true), None);
      var question := QuestionEntry("How is provider referenced?", "awareness", "multiple-choice", Some(true), None, None, Some([response]));
      var pillar := SellingPoint(Some("Trust"), None, Some("Highlights brand trust"), Some(true), Some([question]));
      var d := ApiResponse("story-123", ApiSummary(5, 3), Some([pillar]), None, None,
                           ApiMetadata(Some("Acme"), "OpenAI", ["gpt-4o"], Live));
      Adapt(d) == UIResult(
        "story-123", UISummary(5, 3), ["gpt-4o"],
        [PillarResult(UntitledPillar, "Highlights brand trust", true,
           [QuestionDetail("How is provider referenced?", "awareness", "multiple-choice", true, None, None,
              [UIResponse("gpt-4o", "OpenAI is mentioned explicitly", true)])])],
        UIMetadata(Some("Acme"), "OpenAI", Live))
  {
    var response := QuestionResponse("gpt-4o", "OpenAI is mentioned explicitly", Some(true), None);
    var question := QuestionEntry("How is provider referenced?", "awareness", "multiple-choice", Some(true), None, None, Some([response]));
    var pillar := SellingPoint(Some("Trust"), None, Some("Highlights brand trust"), Some(true), Some([question]));
    assert NormalizeResponses([response]) == [UIResponse("gpt-4o", "OpenAI is mentioned explicitly", true)];
    assert AdaptPillar(pillar).questions == [AdaptQuestion(question)];
    assert AdaptPillars([pillar]) == [AdaptPillar(pillar)];
  }

  /** The fallback example: with `selling_points` absent the `pillars` list is shown. */
  lemma FallbackExample()
    ensures var question := QuestionEntry("Prompt", "cat", "open", None, None, None,
                                          Some([QuestionResponse("gpt-4o", "Answer", None, None)]));
      var pillar := SellingPoint(Some("Awareness"), None, Some(""), None, Some([question]));
      var d := ApiResponse("story-789", ApiSummary(1, 1), None, None, Some([pillar]),
                           ApiMetadata(None, "OpenAI", ["gpt-4o"], Live));
      var r := Adapt(d);
      |r.pillars| == 1 && r.pillars[0].title == UntitledPillar
      && r.pillars[0].questions[0].responses[0] == UIResponse("gpt-4o", "Answer", false)
  {
  }
}
