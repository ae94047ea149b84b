/**
 * The pure tail of `fetchAnalysis`: a parsed response body is normalised and
 * then adapted. The lemmas here state the end-to-end promises of the two
 * stages together.
 */
module Pipeline {
  import opened Results
  import opened Json
  import opened Types
  import opened Normalize
  import opened Adapter

  /** Normalise, then adapt; the only failure is the fixed format error. */
  function Analyze(raw: Json): (r: Result<UIResult, string>)
    ensures r.Err? <==> ParseEnvelope(raw).Err?
    ensures r.Err? ==> r.error == UnexpectedFormat
    ensures r.Ok? ==>
      var d := ParseEnvelope(raw).value;
      && r.value.storyId == d.storyId
      && r.value.summary == UISummary(d.summary.totalQuestions, d.summary.recognizedIn)
      && r.value.models == d.metadata.modelsRun
      && r.value.metadata == UIMetadata(d.metadata.clientName, d.metadata.providerName, d.metadata.mode)
      && r.value.pillars == AdaptPillars(ResolvePillars(MergeCamelPillars(d)))
  {
    var d :- NormalizePayload(raw);
    Ok(Adapt(d))
  }

  /** Reference selection: the first non-empty list, else the last one. */
  function FirstNonEmpty(a: seq<SellingPoint>, b: seq<SellingPoint>, c: seq<SellingPoint>): seq<SellingPoint> {
    if |a| > 0 then a else if |b| > 0 then b else c
  }

  /**
   * End to end, the pillars shown come from the first non-empty of
   * `selling_points`, `sellingPoints`, `pillars`: an empty higher list falls
   * through to the next.
   */
  lemma PillarPrecedence(raw: Json)
    ensures ParseEnvelope(raw).Ok? ==>
      var d := ParseEnvelope(raw).value;
      Analyze(raw).value.pillars
      == AdaptPillars(FirstNonEmpty(d.sellingPoints.value, d.camelSellingPoints.value, d.pillars.value))
  {
  }

  /** `{data: P}`: the envelope around a payload. */
  function Wrap(p: Json): (w: Json)
    ensures w.Obj? && Get(w.fields, "data") == Some(p)
  {
    Obj([("data", p)])
  }

  /** A wrapped payload is read exactly as its body. */
  lemma EnvelopeReadsBody(p: Json)
    ensures ParseEnvelope(Wrap(p)) == ParseBody(Some(p))
  {
    assert Get(Wrap(p).fields, "story_id") == None;
  }

  /**
   * Wrapping changes nothing unless the payload itself carries a `data`
   * member that the unwrapped reading would have fallen back to.
   */
  lemma EnvelopeTransparent(p: Json)
    requires !p.Obj? || KeyAbsent(p.fields, "data") || ParseBody(Some(p)).Ok?
    ensures Analyze(Wrap(p)) == Analyze(p)
  {
    EnvelopeReadsBody(p);
    var d := ParseBody(Some(p));
    if d.Err? {
      assert ParseEnvelope(p).Err?;
    }
  }

  /** Unwrapping is one level only: a doubly wrapped payload is rejected. */
  lemma EnvelopeOneLevel(p: Json)
    ensures Analyze(Wrap(Wrap(p))) == Err(UnexpectedFormat)
  {
    EnvelopeReadsBody(Wrap(p));
    assert Get(Wrap(p).fields, "story_id") == None;
  }

  /** Two objects that agree on every member the body reads (summary and metadata up to parsing) have the same body. */
  lemma SameBody(a: seq<(string, Json)>, b: seq<(string, Json)>)
    requires ParseSummary(Get(a, "summary")) == ParseSummary(Get(b, "summary"))
    requires Get(a, "story_id") == Get(b, "story_id")
    requires Get(a, "selling_points") == Get(b, "selling_points")
    requires Get(a, "sellingPoints") == Get(b, "sellingPoints")
    requires Get(a, "pillars") == Get(b, "pillars")
    requires ParseMetadata(Get(a, "metadata")) == ParseMetadata(Get(b, "metadata"))
    ensures ParseBody(Some(Obj(a))) == ParseBody(Some(Obj(b)))
  {
    assert ParseBody(Some(Obj(a))) == ParseMembers(Get(a, "story_id"), ParseSummary(Get(a, "summary")), Get(a, "selling_points"),
                                                   Get(a, "sellingPoints"), Get(a, "pillars"), ParseMetadata(Get(a, "metadata")));
    assert ParseBody(Some(Obj(b))) == ParseMembers(Get(b, "story_id"), ParseSummary(Get(b, "summary")), Get(b, "selling_points"),
                                                   Get(b, "sellingPoints"), Get(b, "pillars"), ParseMetadata(Get(b, "metadata")));
  }

  /** The unwrapped reading is tried first: a valid payload's own `data` member is ignored. */
  lemma DirectBranchFirst(fs: seq<(string, Json)>, data: Json)
    ensures ParseBody(Some(Obj(fs))).Ok? ==> Analyze(Obj(fs + [("data", data)])) == Analyze(Obj(fs))
  {
    if ParseBody(Some(Obj(fs))).Ok? {
      var a := fs + [("data", data)];
      assert ParseBody(Some(Obj(a))) == ParseBody(Some(Obj(fs))) by {
        GetAppended(fs, "data", data, "story_id");
        GetAppended(fs, "data", data, "summary");
        GetAppended(fs, "data", data, "selling_points");
        GetAppended(fs, "data", data, "sellingPoints");
        GetAppended(fs, "data", data, "pillars");
        GetAppended(fs, "data", data, "metadata");
        SameBody(a, fs);
      }
      assert ParseEnvelope(Obj(a)) == ParseEnvelope(Obj(fs));
    }
  }

  /** A top-level payload whose last `key` member is `m`. */
  function WithMember(front: seq<(string, Json)>, key: string, m: Json, back: seq<(string, Json)>): (p: Json)
    requires KeyAbsent(back, key)
    ensures p.Obj? && Get(p.fields, key) == Some(m)
  {
    GetLastWins(front, key, m, back);
    Obj(front + [(key, m)] + back)
  }

  /** What is shown depends on the payload only through how the envelope reads it. */
  lemma SameEnvelope(x: Json, y: Json)
    requires ParseEnvelope(x) == ParseEnvelope(y)
    ensures Analyze(x) == Analyze(y)
  {
  }

  /** Two top-level objects that agree on every member the body reads (summary and metadata up to parsing) are read alike. */
  lemma BodyCongruence(a: seq<(string, Json)>, b: seq<(string, Json)>)
    requires ParseSummary(Get(a, "summary")) == ParseSummary(Get(b, "summary"))
    requires Get(a, "story_id") == Get(b, "story_id")
    requires Get(a, "selling_points") == Get(b, "selling_points")
    requires Get(a, "sellingPoints") == Get(b, "sellingPoints")
    requires Get(a, "pillars") == Get(b, "pillars")
    requires ParseMetadata(Get(a, "metadata")) == ParseMetadata(Get(b, "metadata"))
    requires Get(a, "data") == Get(b, "data")
    ensures Analyze(Obj(a)) == Analyze(Obj(b))
  {
    assert ParseEnvelope(Obj(a)) == ParseEnvelope(Obj(b)) by {
      SameBody(a, b);
    }
    SameEnvelope(Obj(a), Obj(b));
  }

  /** Spelling `summary` in camelCase instead of snake_case leaves the whole result unchanged. */
  lemma SummarySpellingEndToEnd(front: seq<(string, Json)>, sfs: seq<(string, Json)>, back: seq<(string, Json)>)
    requires KeyAbsent(back, "summary")
    requires KeyAbsent(sfs, "totalQuestions") && KeyAbsent(sfs, "aiProviderRecognizedIn")
    ensures Analyze(WithMember(front, "summary", Obj(RenameKeys(sfs, SummaryAlias)), back))
         == Analyze(WithMember(front, "summary", Obj(sfs), back))
  {
    var camel := Obj(RenameKeys(sfs, SummaryAlias));
    var a := front + [("summary", camel)] + back;
    var b := front + [("summary", Obj(sfs))] + back;
    assert ParseSummary(Get(a, "summary")) == ParseSummary(Get(b, "summary")) by {
      GetLastWins(front, "summary", camel, back);
      GetLastWins(front, "summary", Obj(sfs), back);
      SummaryConventionIrrelevant(sfs);
    }
    GetReplaced(front, "summary", camel, Obj(sfs), back, "story_id");
    GetReplaced(front, "summary", camel, Obj(sfs), back, "selling_points");
    GetReplaced(front, "summary", camel, Obj(sfs), back, "sellingPoints");
    GetReplaced(front, "summary", camel, Obj(sfs), back, "pillars");
    GetReplaced(front, "summary", camel, Obj(sfs), back, "metadata");
    GetReplaced(front, "summary", camel, Obj(sfs), back, "data");
    BodyCongruence(a, b);
  }

  /** Spelling `metadata` in camelCase instead of snake_case leaves the whole result unchanged. */
  lemma MetadataSpellingEndToEnd(front: seq<(string, Json)>, mfs: seq<(string, Json)>, back: seq<(string, Json)>)
    requires KeyAbsent(back, "metadata")
    requires KeyAbsent(mfs, "clientName") && KeyAbsent(mfs, "providerName") && KeyAbsent(mfs, "modelsRun")
    ensures Analyze(WithMember(front, "metadata", Obj(RenameKeys(mfs, MetadataAlias)), back))
         == Analyze(WithMember(front, "metadata", Obj(mfs), back))
  {
    var camel := Obj(RenameKeys(mfs, MetadataAlias));
    var a := front + [("metadata", camel)] + back;
    var b := front + [("metadata", Obj(mfs))] + back;
    assert ParseMetadata(Get(a, "metadata")) == ParseMetadata(Get(b, "metadata")) by {
      GetLastWins(front, "metadata", camel, back);
      GetLastWins(front, "metadata", Obj(mfs), back);
      MetadataConventionIrrelevant(mfs);
    }
    GetReplaced(front, "metadata", camel, Obj(mfs), back, "story_id");
    GetReplaced(front, "metadata", camel, Obj(mfs), back, "summary");
    GetReplaced(front, "metadata", camel, Obj(mfs), back, "selling_points");
    GetReplaced(front, "metadata", camel, Obj(mfs), back, "sellingPoints");
    GetReplaced(front, "metadata", camel, Obj(mfs), back, "pillars");
    GetReplaced(front, "metadata", camel, Obj(mfs), back, "data");
    BodyCongruence(a, b);
  }

  // The worked example of a raw payload: a story with one selling point, one
  // question and one response, whose flags are all set by `ai_provider_inferred`.
  // Each record is written around the one it contains.

  const ExampleResponse: Json := Obj([("model", Str("gpt-4o")), ("answer", Str("A")), ("ai_provider_inferred", Bool(true))])

  function ExampleQuestion(response: Json): Json {
    Obj([("prompt", Str("Q")), ("category", Str("c")), ("kind", Str("k")), ("responses", Arr([response]))])
  }

  function ExamplePillar(question: Json): Json {
    Obj([("title", Str("Trust")), ("ai_provider_inferred", Bool(true)), ("questions", Arr([question]))])
  }

  const ExampleSummary: Json := Obj([("total_questions", Num(2)), ("ai_provider_recognized_in", Num(1))])

  const ExampleMetadata: Json :=
    Obj([("client_name", Null), ("provider_name", Str("OpenAI")), ("models_run", Arr([Str("gpt-4o")])), ("mode", Str("live"))])

  function ExamplePayload(summary: Json, pillar: Json, metadata: Json): Json {
    Obj([("story_id", Str("s1")), ("summary", summary), ("selling_points", Arr([pillar])), ("metadata", metadata)])
  }

  /** An array of one element reads as the one value its element reads as. */
  lemma ReadOne<T>(x: Json, item: Json -> Parsed<T>, v: T)
    requires item(x) == Ok(v)
    ensures ListReads(Some(Arr([x])), item, [v])
  {
  }

  /** The example's response keeps `inferred` absent. */
  lemma ExampleResponseRead()
    ensures ParseResponse(ExampleResponse) == Ok(QuestionResponse("gpt-4o", "A", None, Some(true)))
  {
    var rfs := ExampleResponse.fields;
    GetAt(rfs, 0);
    GetAt(rfs, 1);
    GetAt(rfs, 2);
    ResponseReadingExact(ExampleResponse, QuestionResponse("gpt-4o", "A", None, Some(true)));
  }

  lemma ExampleQuestionMembers(response: Json)
    ensures var fs := [("prompt", Str("Q")), ("category", Str("c")), ("kind", Str("k")), ("responses", Arr([response]))];
      && Get(fs, "prompt") == Some(Str("Q")) && Get(fs, "category") == Some(Str("c")) && Get(fs, "kind") == Some(Str("k"))
      && Get(fs, "responses") == Some(Arr([response]))
      && Get(fs, "ai_provider_inferred").None? && Get(fs, "id").None? && Get(fs, "assumptions").None?
  {
    var fs := [("prompt", Str("Q")), ("category", Str("c")), ("kind", Str("k")), ("responses", Arr([response]))];
    GetAt(fs, 0);
    GetAt(fs, 1);
    GetAt(fs, 2);
    GetAt(fs, 3);
    assert KeyAbsent(fs, "ai_provider_inferred");
    assert KeyAbsent(fs, "id");
    assert KeyAbsent(fs, "assumptions");
  }

  /** The example's question takes its defaults: not inferred, no `id`, no assumptions. */
  lemma ExampleQuestionRead(response: Json, r: QuestionResponse)
    requires ParseResponse(response) == Ok(r)
    ensures ParseQuestion(ExampleQuestion(response)) == Ok(QuestionEntry("Q", "c", "k", Some(false), None, Some([]), Some([r])))
  {
    ExampleQuestionMembers(response);
    ReadOne(response, ParseResponse, r);
    QuestionReadingExact(ExampleQuestion(response), QuestionEntry("Q", "c", "k", Some(false), None, Some([]), Some([r])));
  }

  lemma ExamplePillarMembers(question: Json)
    ensures var fs := [("title", Str("Trust")), ("ai_provider_inferred", Bool(true)), ("questions", Arr([question]))];
      && Get(fs, "title") == Some(Str("Trust")) && Get(fs, "ai_provider_inferred") == Some(Bool(true))
      && Get(fs, "questions") == Some(Arr([question])) && Get(fs, "pillar").None? && Get(fs, "summary").None?
  {
    var fs := [("title", Str("Trust")), ("ai_provider_inferred", Bool(true)), ("questions", Arr([question]))];
    GetAt(fs, 0);
    GetAt(fs, 1);
    GetAt(fs, 2);
    assert KeyAbsent(fs, "pillar");
    assert KeyAbsent(fs, "summary");
  }

  /** The example's pillar takes its defaults: no `pillar`, an empty summary. */
  lemma ExamplePillarRead(question: Json, q: QuestionEntry)
    requires ParseQuestion(question) == Ok(q)
    ensures ParsePillar(ExamplePillar(question)) == Ok(SellingPoint(Some("Trust"), None, Some(""), Some(true), Some([q])))
  {
    ExamplePillarMembers(question);
    ReadOne(question, ParseQuestion, q);
    PillarReadingExact(ExamplePillar(question), SellingPoint(Some("Trust"), None, Some(""), Some(true), Some([q])));
  }

  /** The example's snake_case summary reads as its counts. */
  lemma ExampleSummaryRead()
    ensures ParseSummary(Some(ExampleSummary)) == Ok(ApiSummary(2, 1))
  {
    var fs := ExampleSummary.fields;
    GetAt(fs, 0);
    GetAt(fs, 1);
    SummaryReadingExact(Some(ExampleSummary), ApiSummary(2, 1));
  }

  lemma ExampleMetadataMembers()
    ensures var fs := ExampleMetadata.fields;
      && Get(fs, "client_name") == Some(Null) && Get(fs, "provider_name") == Some(Str("OpenAI"))
      && Get(fs, "models_run") == Some(Arr([Str("gpt-4o")])) && Get(fs, "mode") == Some(Str("live"))
  {
    var fs := ExampleMetadata.fields;
    GetAt(fs, 0);
    GetAt(fs, 1);
    GetAt(fs, 2);
    GetAt(fs, 3);
  }

  /** The example's snake_case metadata reads as its values, a null `client_name` as none. */
  lemma ExampleMetadataRead()
    ensures ParseMetadata(Some(ExampleMetadata)) == Ok(ApiMetadata(None, "OpenAI", ["gpt-4o"], Live))
  {
    var md := ApiMetadata(None, "OpenAI", ["gpt-4o"], Live);
    ExampleMetadataMembers();
    ReadOne(Str("gpt-4o"), StringItem, "gpt-4o");
    MetadataReadsShape(Some(Null), Some(Str("OpenAI")), Some(Arr([Str("gpt-4o")])), Some(Str("live")), md);
    MetadataReadingExact(Some(ExampleMetadata), md);
  }

  lemma ExamplePayloadMembers(summary: Json, pillar: Json, metadata: Json)
    ensures var fs := [("story_id", Str("s1")), ("summary", summary), ("selling_points", Arr([pillar])), ("metadata", metadata)];
      && Get(fs, "story_id") == Some(Str("s1")) && Get(fs, "summary") == Some(summary)
      && Get(fs, "selling_points") == Some(Arr([pillar])) && Get(fs, "metadata") == Some(metadata)
      && Get(fs, "sellingPoints").None? && Get(fs, "pillars").None?
  {
    var fs := [("story_id", Str("s1")), ("summary", summary), ("selling_points", Arr([pillar])), ("metadata", metadata)];
    GetAt(fs, 0);
    GetAt(fs, 1);
    GetAt(fs, 2);
    GetAt(fs, 3);
    assert KeyAbsent(fs, "sellingPoints");
    assert KeyAbsent(fs, "pillars");
  }

  /** An object with a story id, a summary, one snake_case pillar and metadata reads as that body. */
  lemma OnePillarBody(fs: seq<(string, Json)>, id: string, s: ApiSummary, pillar: Json, p: SellingPoint, md: ApiMetadata)
    requires Get(fs, "story_id") == Some(Str(id)) && ParseSummary(Get(fs, "summary")) == Ok(s)
    requires Get(fs, "selling_points") == Some(Arr([pillar])) && ListReads(Some(Arr([pillar])), ParsePillar, [p]) && CanonicalPillar(p)
    requires Get(fs, "sellingPoints").None? && Get(fs, "pillars").None?
    requires ParseMetadata(Get(fs, "metadata")) == Ok(md)
    ensures ReadsAsBody(Some(Obj(fs)), ApiResponse(id, s, Some([p]), Some([]), Some([]), md))
  {
  }

  /** The example's payload reads, member by member, as a body with one pillar. */
  lemma ExampleBodyReads(summary: Json, pillar: Json, metadata: Json, s: ApiSummary, p: SellingPoint, md: ApiMetadata)
    requires ParseSummary(Some(summary)) == Ok(s) && ParsePillar(pillar) == Ok(p) && ParseMetadata(Some(metadata)) == Ok(md)
    ensures ReadsAsBody(Some(ExamplePayload(summary, pillar, metadata)), ApiResponse("s1", s, Some([p]), Some([]), Some([]), md))
  {
    ExamplePayloadMembers(summary, pillar, metadata);
    ReadOne(pillar, ParsePillar, p);
    OnePillarBody(ExamplePayload(summary, pillar, metadata).fields, "s1", s, pillar, p, md);
  }

  /** The whole payload validates as it stands; the two absent pillar lists read as empty. */
  lemma ExampleEnvelope(summary: Json, pillar: Json, metadata: Json, s: ApiSummary, p: SellingPoint, md: ApiMetadata)
    requires ParseSummary(Some(summary)) == Ok(s) && ParsePillar(pillar) == Ok(p) && ParseMetadata(Some(metadata)) == Ok(md)
    ensures ParseEnvelope(ExamplePayload(summary, pillar, metadata)) == Ok(ApiResponse("s1", s, Some([p]), Some([]), Some([]), md))
  {
    ExampleBodyReads(summary, pillar, metadata, s, p, md);
    BodyReadingExact(Some(ExamplePayload(summary, pillar, metadata)), ApiResponse("s1", s, Some([p]), Some([]), Some([]), md));
  }

  /** A payload read as a body with one snake_case pillar is shown with that pillar adapted. */
  lemma OnePillarAnalysis(raw: Json, id: string, s: ApiSummary, p: SellingPoint, md: ApiMetadata)
    requires ParseEnvelope(raw) == Ok(ApiResponse(id, s, Some([p]), Some([]), Some([]), md))
    ensures Analyze(raw) == Ok(UIResult(id, UISummary(s.totalQuestions, s.recognizedIn), md.modelsRun, [AdaptPillar(p)],
                                        UIMetadata(md.clientName, md.providerName, md.mode)))
  {
    var d := ParseEnvelope(raw).value;
    assert MergeCamelPillars(d) == d;
    assert AdaptPillars([p]) == [AdaptPillar(p)];
  }

  /** The example's pillar around its question around one inferred response, once adapted. */
  lemma ExampleAdapted(resp: QuestionResponse, q: QuestionEntry, p: SellingPoint)
    requires resp == QuestionResponse("gpt-4o", "A", None, Some(true))
    requires q == QuestionEntry("Q", "c", "k", Some(false), None, Some([]), Some([resp]))
    requires p == SellingPoint(Some("Trust"), None, Some(""), Some(true), Some([q]))
    ensures AdaptPillar(p) == PillarResult(UntitledPillar, "", true,
      [QuestionDetail("Q", "c", "k", false, Some([]), None, [UIResponse("gpt-4o", "A", true)])])
  {
    assert NormalizeResponses([resp]) == [UIResponse("gpt-4o", "A", true)];
    assert AdaptPillar(p).questions == [AdaptQuestion(q)];
  }

  /**
   * End to end, a payload shaped as the example shows story "s1", one pillar
   * with one question and one inferred response. The pillar names itself
   * only by `title`, so it is shown as untitled.
   */
  lemma ScenarioEndToEnd(summary: Json, response: Json, metadata: Json)
    requires ParseSummary(Some(summary)) == Ok(ApiSummary(2, 1))
    requires ParseResponse(response) == Ok(QuestionResponse("gpt-4o", "A", None, Some(true)))
    requires ParseMetadata(Some(metadata)) == Ok(ApiMetadata(None, "OpenAI", ["gpt-4o"], Live))
    ensures Analyze(ExamplePayload(summary, ExamplePillar(ExampleQuestion(response)), metadata)) == Ok(UIResult(
      "s1", UISummary(2, 1), ["gpt-4o"],
      [PillarResult(UntitledPillar, "", true,
         [QuestionDetail("Q", "c", "k", false, Some([]), None, [UIResponse("gpt-4o", "A", true)])])],
      UIMetadata(None, "OpenAI", Live)))
  {
    var resp := QuestionResponse("gpt-4o", "A", None, Some(true));
    var q := QuestionEntry("Q", "c", "k", Some(false), None, Some([]), Some([resp]));
    var p := SellingPoint(Some("Trust"), None, Some(""), Some(true), Some([q]));
    var pillar := ExamplePillar(ExampleQuestion(response));
    ExampleQuestionRead(response, resp);
    ExamplePillarRead(ExampleQuestion(response), q);
    ExampleEnvelope(summary, pillar, metadata, ApiSummary(2, 1), p, ApiMetadata(None, "OpenAI", ["gpt-4o"], Live));
    OnePillarAnalysis(ExamplePayload(summary, pillar, metadata), "s1", ApiSummary(2, 1), p,
                      ApiMetadata(None, "OpenAI", ["gpt-4o"], Live));
    ExampleAdapted(resp, q, p);
  }

  /** The example payload itself. */
  lemma ExampleScenario()
    ensures Analyze(ExamplePayload(ExampleSummary, ExamplePillar(ExampleQuestion(ExampleResponse)), ExampleMetadata)) == Ok(UIResult(
      "s1", UISummary(2, 1), ["gpt-4o"],
      [PillarResult(UntitledPillar, "", true,
         [QuestionDetail("Q", "c", "k", false, Some([]), None, [UIResponse("gpt-4o", "A", true)])])],
      UIMetadata(None, "OpenAI", Live)))
  {
    ExampleSummaryRead();
    ExampleResponseRead();
    ExampleMetadataRead();
    ScenarioEndToEnd(ExampleSummary, ExampleResponse, ExampleMetadata);
  }
}
