/**
 * The shape reconciler: the response schemas of the API client and
 * `normalizeApiResponsePayload`. Only each schema's accept/reject decision
 * and its output are modelled; a rejection carries no detail because the
 * caller replaces every rejection by one fixed message. Each check is
 * specified against the members it reads, as `Get` reports them.
 */
module Normalize {
  import opened Results
  import opened Json
  import opened Types
  import Text

  /** The validator rejected the payload; all rejections are alike. */
  datatype SchemaError = Mismatch

  type Parsed<T> = Result<T, SchemaError>

  /** The message of the only error normalisation raises. */
  const UnexpectedFormat := "Received unexpected response format from API"

  // ----------------------------------------------------------------- members
  // `v` is the value of an object member, `None` when the member is absent.

  /** The member that holds an optional string: absent when there is none. */
  function StrMember(o: Option<string>): Option<Json> {
    if o.Some? then Some(Str(o.value)) else None
  }

  /** The member that holds an optional boolean: absent when there is none. */
  function BoolMember(o: Option<bool>): Option<Json> {
    if o.Some? then Some(Bool(o.value)) else None
  }

  /** The value a nullable string is written as: `null` when there is none. */
  function NullableValue(o: Option<string>): Json {
    if o.Some? then Str(o.value) else Null
  }

  predicate IsStrMember(v: Option<Json>) {
    v.Some? && v.value.Str?
  }

  predicate IsOptStrMember(v: Option<Json>) {
    v.None? || v.value.Str?
  }

  predicate IsOptBoolMember(v: Option<Json>) {
    v.None? || v.value.Bool?
  }

  /** An absent member, or an array every element of which `item` accepts. */
  predicate ListAccepted<T>(v: Option<Json>, item: Json -> Parsed<T>) {
    match v
    case None => true
    case Some(Arr(items)) => forall i :: 0 <= i < |items| ==> item(items[i]).Ok?
    case Some(_) => false
  }

  /** `xs` is what `item` reads from the array member `v`, element by element; an absent member reads as empty. */
  ghost predicate ListReads<T>(v: Option<Json>, item: Json -> Parsed<T>, xs: seq<T>) {
    match v
    case None => xs == []
    case Some(Arr(items)) => |items| == |xs| && forall i :: 0 <= i < |xs| ==> item(items[i]) == Ok(xs[i])
    case Some(_) => false
  }

  /** A member is read as at most one list. */
  lemma ListReadsUnique<T>(v: Option<Json>, item: Json -> Parsed<T>, xs: seq<T>, ys: seq<T>)
    requires ListReads(v, item, xs) && ListReads(v, item, ys)
    ensures xs == ys
  {
    if v.Some? {
      var items := v.value.items;
      assert forall i :: 0 <= i < |xs| ==> Ok(xs[i]) == item(items[i]) == Ok(ys[i]);
    }
  }

  // ------------------------------------------------------------ field checks

  /** `z.string()` */
  function RequiredString(v: Option<Json>): (r: Parsed<string>)
    ensures r.Ok? <==> IsStrMember(v)
    ensures r.Ok? ==> v == Some(Str(r.value))
  {
    match v
    case Some(Str(s)) => Ok(s)
    case _ => Err(Mismatch)
  }

  /** `z.string().optional()`: absence is accepted, `null` is not. */
  function OptionalString(v: Option<Json>): (r: Parsed<Option<string>>)
    ensures r.Ok? <==> IsOptStrMember(v)
    ensures r.Ok? ==> v == StrMember(r.value)
  {
    match v
    case None => Ok(None)
    case Some(Str(s)) => Ok(Some(s))
    case Some(_) => Err(Mismatch)
  }

  /** `z.string().nullable()`: `null` is accepted, absence is not. */
  function NullableString(v: Option<Json>): (r: Parsed<Option<string>>)
    ensures r.Ok? <==> v.Some? && (v.value.Null? || v.value.Str?)
    ensures r.Ok? ==> v == Some(NullableValue(r.value))
  {
    match v
    case Some(Null) => Ok(None)
    case Some(Str(s)) => Ok(Some(s))
    case _ => Err(Mismatch)
  }

  /** `z.boolean().optional()` */
  function OptionalBool(v: Option<Json>): (r: Parsed<Option<bool>>)
    ensures r.Ok? <==> IsOptBoolMember(v)
    ensures r.Ok? ==> v == BoolMember(r.value)
  {
    match v
    case None => Ok(None)
    case Some(Bool(b)) => Ok(Some(b))
    case Some(_) => Err(Mismatch)
  }

  /** `z.boolean().optional().default(d)` */
  function BoolOrDefault(v: Option<Json>, d: bool): (r: Parsed<bool>)
    ensures r.Ok? <==> IsOptBoolMember(v)
    ensures r.Ok? ==> v == Some(Bool(r.value)) || (v.None? && r.value == d)
  {
    match v
    case None => Ok(d)
    case Some(Bool(b)) => Ok(b)
    case Some(_) => Err(Mismatch)
  }

  /** `z.string().optional().default(d)` */
  function StringOrDefault(v: Option<Json>, d: string): (r: Parsed<string>)
    ensures r.Ok? <==> IsOptStrMember(v)
    ensures r.Ok? ==> v == Some(Str(r.value)) || (v.None? && r.value == d)
  {
    match v
    case None => Ok(d)
    case Some(Str(s)) => Ok(s)
    case Some(_) => Err(Mismatch)
  }

  /** `z.union([z.literal("stub"), z.literal("live")])` */
  function ModeLiteral(v: Option<Json>): (r: Parsed<Mode>)
    ensures r.Ok? <==> exists m: Mode :: v == Some(Str(m.Label()))
    ensures r.Ok? ==> v == Some(Str(r.value.Label()))
  {
    match v
    case Some(Str(s)) =>
      (match ModeFromLabel(s)
       case Some(m) => Ok(m)
       case None => Err(Mismatch))
    case _ => Err(Mismatch)
  }

  /** An array element checked by `z.string()`. */
  function StringItem(j: Json): (r: Parsed<string>)
    ensures r.Ok? <==> j.Str?
    ensures r.Ok? ==> j == Str(r.value)
  {
    RequiredString(Some(j))
  }

  /** `z.array(item)` applied to the elements: all of them pass, in order, or the array is rejected. */
  function ParseEach<T>(items: seq<Json>, item: Json -> Parsed<T>): (r: Parsed<seq<T>>)
    ensures r.Ok? <==> forall i :: 0 <= i < |items| ==> item(items[i]).Ok?
    ensures r.Ok? ==> |r.value| == |items| && forall i :: 0 <= i < |items| ==> item(items[i]) == Ok(r.value[i])
  {
    if |items| == 0 then Ok([])
    else
      var head :- item(items[0]);
      var tail :- ParseEach(items[1..], item);
      assert forall i :: 1 <= i < |items| ==> items[i] == items[1..][i - 1];
      Ok([head] + tail)
  }

  /** `z.array(item)` on a required member. */
  function RequiredArray<T>(v: Option<Json>, item: Json -> Parsed<T>): (r: Parsed<seq<T>>)
    ensures r.Ok? <==> v.Some? && ListAccepted(v, item)
    ensures r.Ok? ==> ListReads(v, item, r.value)
  {
    match v
    case Some(Arr(items)) => ParseEach(items, item)
    case _ => Err(Mismatch)
  }

  /** `z.array(item).optional().default([])` */
  function ArrayOrEmpty<T>(v: Option<Json>, item: Json -> Parsed<T>): (r: Parsed<seq<T>>)
    ensures r.Ok? <==> ListAccepted(v, item)
    ensures r.Ok? ==> ListReads(v, item, r.value)
  {
    match v
    case None => Ok([])
    case Some(Arr(items)) => ParseEach(items, item)
    case Some(_) => Err(Mismatch)
  }

  // ------------------------------------------------------- numeric coercion

  /**
   * `Number(a)` for an array `a`: `String(a)` joins the elements with ",",
   * so two or more elements never read as a number; one element reads as
   * its own string form (`null` as ""), and the empty array as 0.
   */
  function ArrayToNumber(items: seq<Json>): (r: Option<int>)
    ensures |items| == 0 ==> r == Some(0)
    ensures |items| > 1 ==> r.None?
    ensures |items| == 1 && items[0].Str? ==> r == Text.StringToNumber(items[0].s)
    ensures |items| == 1 && items[0].Num? ==> r == Some(items[0].n)
    ensures |items| == 1 && (items[0].Bool? || items[0].Obj?) ==> r.None?
    ensures |items| == 1 && items[0].Null? ==> r == Some(0)
    decreases Arr(items)
  {
    if |items| == 0 then Some(0)
    else if |items| > 1 then None
    else
      match items[0]
      case Null => Some(0)
      case Bool(_) => None
      case Num(n) => Some(n)
      case Str(s) => Text.StringToNumber(s)
      case Arr(inner) => ArrayToNumber(inner)
      case Obj(_) => None
  }

  /** `z.coerce.number()`: `Number(v)`, rejected when that is not a number. */
  function CoerceNumber(v: Option<Json>): (r: Parsed<int>)
    ensures v.None? || v.value.Obj? ==> r.Err?
    ensures v == Some(Null) ==> r == Ok(0)
    ensures v.Some? && v.value.Bool? ==> r == Ok(if v.value.b then 1 else 0)
    ensures v.Some? && v.value.Num? ==> r == Ok(v.value.n)
    ensures v.Some? && v.value.Str? ==> (r.Ok? <==> Text.StringToNumber(v.value.s).Some?)
    ensures v.Some? && v.value.Str? && r.Ok? ==> Text.StringToNumber(v.value.s) == Some(r.value)
    ensures v.Some? && v.value.Arr? ==> (r.Ok? <==> ArrayToNumber(v.value.items).Some?)
    ensures v.Some? && v.value.Arr? && r.Ok? ==> ArrayToNumber(v.value.items) == Some(r.value)
  {
    var n :=
      match v
      case None => None
      case Some(Null) => Some(0)
      case Some(Bool(b)) => Some(if b then 1 else 0)
      case Some(Num(k)) => Some(k)
      case Some(Str(s)) => Text.StringToNumber(s)
      case Some(Arr(items)) => ArrayToNumber(items)
      case Some(Obj(_)) => None;
    if n.Some? then Ok(n.value) else Err(Mismatch)
  }

  /** A numeric string is read back as the number it renders. */
  lemma CoerceNumericString(n: int)
    ensures CoerceNumber(Some(Str(Text.ShowInt(n)))) == Ok(n)
  {
    Text.NumberOfShowInt(n);
  }

  // ------------------------------------------------------------- records

  /** `r` is what `questionResponseSchema` reads from `j`, member by member. */
  ghost predicate ReadsAsResponse(j: Json, r: QuestionResponse) {
    && j.Obj?
    && Get(j.fields, "model") == Some(Str(r.model))
    && Get(j.fields, "answer") == Some(Str(r.answer))
    && Get(j.fields, "inferred") == BoolMember(r.inferred)
    && Get(j.fields, "ai_provider_inferred") == BoolMember(r.aiProviderInferred)
  }

  /** `questionResponseSchema`: both inference flags stay optional. */
  function ParseResponse(j: Json): (r: Parsed<QuestionResponse>)
    ensures r.Ok? <==> j.Obj? && IsStrMember(Get(j.fields, "model")) && IsStrMember(Get(j.fields, "answer"))
                       && IsOptBoolMember(Get(j.fields, "inferred")) && IsOptBoolMember(Get(j.fields, "ai_provider_inferred"))
    ensures r.Ok? ==> ReadsAsResponse(j, r.value)
  {
    match j
    case Obj(fs) =>
      var model :- RequiredString(Get(fs, "model"));
      var answer :- RequiredString(Get(fs, "answer"));
      var inferred :- OptionalBool(Get(fs, "inferred"));
      var flag :- OptionalBool(Get(fs, "ai_provider_inferred"));
      Ok(QuestionResponse(model, answer, inferred, flag))
    case _ => Err(Mismatch)
  }

  /** Every defaulted member of a validated question is present. */
  predicate CanonicalQuestion(q: QuestionEntry) {
    q.aiProviderInferred.Some? && q.assumptions.Some? && q.responses.Some?
  }

  /** A member `.optional().default(d)` reads as `x`: present and `x`, or absent and `x` is `d`. */
  predicate DefaultedBool(v: Option<Json>, d: bool, x: Option<bool>) {
    x.Some? && (v == Some(Bool(x.value)) || (v.None? && x.value == d))
  }

  /** The same for a string member. */
  predicate DefaultedString(v: Option<Json>, d: string, x: Option<string>) {
    x.Some? && (v == Some(Str(x.value)) || (v.None? && x.value == d))
  }

  /** `q` is what `questionSchema` reads from `j`, member by member, defaults filled in. */
  ghost predicate ReadsAsQuestion(j: Json, q: QuestionEntry) {
    && j.Obj? && q.assumptions.Some? && q.responses.Some?
    && Get(j.fields, "prompt") == Some(Str(q.prompt))
    && Get(j.fields, "category") == Some(Str(q.category))
    && Get(j.fields, "kind") == Some(Str(q.kind))
    && DefaultedBool(Get(j.fields, "ai_provider_inferred"), false, q.aiProviderInferred)
    && Get(j.fields, "id") == StrMember(q.id)
    && ListReads(Get(j.fields, "assumptions"), StringItem, q.assumptions.value)
    && ListReads(Get(j.fields, "responses"), ParseResponse, q.responses.value)
  }

  /** `questionSchema` */
  function ParseQuestion(j: Json): (r: Parsed<QuestionEntry>)
    ensures r.Ok? <==> j.Obj? && IsStrMember(Get(j.fields, "prompt")) && IsStrMember(Get(j.fields, "category"))
                       && IsStrMember(Get(j.fields, "kind")) && IsOptBoolMember(Get(j.fields, "ai_provider_inferred"))
                       && IsOptStrMember(Get(j.fields, "id")) && ListAccepted(Get(j.fields, "assumptions"), StringItem)
                       && ListAccepted(Get(j.fields, "responses"), ParseResponse)
    ensures r.Ok? ==> CanonicalQuestion(r.value)
    ensures r.Ok? ==> ReadsAsQuestion(j, r.value)
  {
    match j
    case Obj(fs) =>
      var prompt :- RequiredString(Get(fs, "prompt"));
      var category :- RequiredString(Get(fs, "category"));
      var kind :- RequiredString(Get(fs, "kind"));
      var flag :- BoolOrDefault(Get(fs, "ai_provider_inferred"), false);
      var id :- OptionalString(Get(fs, "id"));
      var assumptions :- ArrayOrEmpty(Get(fs, "assumptions"), StringItem);
      var responses :- ArrayOrEmpty(Get(fs, "responses"), ParseResponse);
      Ok(QuestionEntry(prompt, category, kind, Some(flag), id, Some(assumptions), Some(responses)))
    case _ => Err(Mismatch)
  }

  /** Every defaulted member of a validated pillar, and of its questions, is present. */
  predicate CanonicalPillar(p: SellingPoint) {
    && p.summary.Some?
    && p.aiProviderInferred.Some?
    && p.questions.Some?
    && forall i :: 0 <= i < |p.questions.value| ==> CanonicalQuestion(p.questions.value[i])
  }

  /** `p` is what `pillarSchema` reads from `j`, member by member, defaults filled in. */
  ghost predicate ReadsAsPillar(j: Json, p: SellingPoint) {
    && j.Obj? && p.questions.Some?
    && Get(j.fields, "title") == StrMember(p.title)
    && Get(j.fields, "pillar") == StrMember(p.pillar)
    && DefaultedString(Get(j.fields, "summary"), "", p.summary)
    && DefaultedBool(Get(j.fields, "ai_provider_inferred"), false, p.aiProviderInferred)
    && ListReads(Get(j.fields, "questions"), ParseQuestion, p.questions.value)
  }

  /** `pillarSchema` */
  function ParsePillar(j: Json): (r: Parsed<SellingPoint>)
    ensures r.Ok? <==> j.Obj? && IsOptStrMember(Get(j.fields, "title")) && IsOptStrMember(Get(j.fields, "pillar"))
                       && IsOptStrMember(Get(j.fields, "summary")) && IsOptBoolMember(Get(j.fields, "ai_provider_inferred"))
                       && ListAccepted(Get(j.fields, "questions"), ParseQuestion)
    ensures r.Ok? ==> CanonicalPillar(r.value)
    ensures r.Ok? ==> ReadsAsPillar(j, r.value)
  {
    match j
    case Obj(fs) =>
      var title :- OptionalString(Get(fs, "title"));
      var pillar :- OptionalString(Get(fs, "pillar"));
      var summary :- StringOrDefault(Get(fs, "summary"), "");
      var flag :- BoolOrDefault(Get(fs, "ai_provider_inferred"), false);
      var questions :- ArrayOrEmpty(Get(fs, "questions"), ParseQuestion);
      Ok(SellingPoint(title, pillar, Some(summary), Some(flag), Some(questions)))
    case _ => Err(Mismatch)
  }

  /** Both counts coerce to numbers. */
  predicate SummaryShape(total: Option<Json>, recognized: Option<Json>) {
    CoerceNumber(total).Ok? && CoerceNumber(recognized).Ok?
  }

  /** `s` holds the numbers the two count members coerce to. */
  predicate SummaryReads(total: Option<Json>, recognized: Option<Json>, s: ApiSummary) {
    CoerceNumber(total) == Ok(s.totalQuestions) && CoerceNumber(recognized) == Ok(s.recognizedIn)
  }

  /** The members of `summarySchema`, under whichever names the branch reads them. */
  function SummaryFrom(total: Option<Json>, recognized: Option<Json>): (r: Parsed<ApiSummary>)
    ensures r.Ok? <==> SummaryShape(total, recognized)
    ensures r.Ok? ==> SummaryReads(total, recognized, r.value)
  {
    var t :- CoerceNumber(total);
    var r :- CoerceNumber(recognized);
    Ok(ApiSummary(t, r))
  }

  /** The snake_case branch of `summarySchema`. */
  function SnakeSummary(v: Option<Json>): Parsed<ApiSummary> {
    match v
    case Some(Obj(fs)) => SummaryFrom(Get(fs, "total_questions"), Get(fs, "ai_provider_recognized_in"))
    case _ => Err(Mismatch)
  }

  /** The camelCase branch of `summarySchema`, already rewritten to the snake_case record. */
  function CamelSummary(v: Option<Json>): Parsed<ApiSummary> {
    match v
    case Some(Obj(fs)) => SummaryFrom(Get(fs, "totalQuestions"), Get(fs, "aiProviderRecognizedIn"))
    case _ => Err(Mismatch)
  }

  /** `s` is what `summarySchema` reads from `v`: the snake_case counts when both coerce, else the camelCase ones. */
  predicate ReadsAsSummary(v: Option<Json>, s: ApiSummary) {
    && v.Some? && v.value.Obj?
    && if SummaryShape(Get(v.value.fields, "total_questions"), Get(v.value.fields, "ai_provider_recognized_in"))
       then SummaryReads(Get(v.value.fields, "total_questions"), Get(v.value.fields, "ai_provider_recognized_in"), s)
       else SummaryReads(Get(v.value.fields, "totalQuestions"), Get(v.value.fields, "aiProviderRecognizedIn"), s)
  }

  /** `summarySchema`: the first branch that accepts wins. */
  function ParseSummary(v: Option<Json>): (r: Parsed<ApiSummary>)
    ensures r.Ok? <==> (
      && v.Some? && v.value.Obj?
      && (|| SummaryShape(Get(v.value.fields, "total_questions"), Get(v.value.fields, "ai_provider_recognized_in"))
          || SummaryShape(Get(v.value.fields, "totalQuestions"), Get(v.value.fields, "aiProviderRecognizedIn"))))
    ensures r.Ok? ==> ReadsAsSummary(v, r.value)
  {
    var snake := SnakeSummary(v);
    if snake.Ok? then snake else CamelSummary(v)
  }

  /** Each member of `metadataSchema` has an accepted value. */
  predicate MetadataShape(client: Option<Json>, provider: Option<Json>, models: Option<Json>, mode: Option<Json>) {
    && client.Some? && (client.value.Null? || client.value.Str?)
    && IsStrMember(provider)
    && models.Some? && ListAccepted(models, StringItem)
    && exists m: Mode :: mode == Some(Str(m.Label()))
  }

  /** `md` holds what the metadata members are read as. */
  ghost predicate MetadataReads(client: Option<Json>, provider: Option<Json>, models: Option<Json>, mode: Option<Json>,
                          md: ApiMetadata)
  {
    && client == Some(NullableValue(md.clientName))
    && provider == Some(Str(md.providerName))
    && models.Some? && ListReads(models, StringItem, md.modelsRun)
    && mode == Some(Str(md.mode.Label()))
  }

  /** The members of `metadataSchema`, under whichever names the branch reads them. */
  function MetadataFrom(client: Option<Json>, provider: Option<Json>, models: Option<Json>, mode: Option<Json>)
    : (r: Parsed<ApiMetadata>)
    ensures r.Ok? <==> MetadataShape(client, provider, models, mode)
    ensures r.Ok? ==> MetadataReads(client, provider, models, mode, r.value)
  {
    var c :- NullableString(client);
    var p :- RequiredString(provider);
    var m :- RequiredArray(models, StringItem);
    var md :- ModeLiteral(mode);
    Ok(ApiMetadata(c, p, m, md))
  }

  /** The snake_case branch of `metadataSchema`. */
  function SnakeMetadata(v: Option<Json>): Parsed<ApiMetadata> {
    match v
    case Some(Obj(fs)) =>
      MetadataFrom(Get(fs, "client_name"), Get(fs, "provider_name"), Get(fs, "models_run"), Get(fs, "mode"))
    case _ => Err(Mismatch)
  }

  /** The camelCase branch of `metadataSchema`, already rewritten to the snake_case record. */
  function CamelMetadata(v: Option<Json>): Parsed<ApiMetadata> {
    match v
    case Some(Obj(fs)) =>
      MetadataFrom(Get(fs, "clientName"), Get(fs, "providerName"), Get(fs, "modelsRun"), Get(fs, "mode"))
    case _ => Err(Mismatch)
  }

  /** `md` is what `metadataSchema` reads from `v`: the snake_case members when they pass, else the camelCase ones. */
  ghost predicate ReadsAsMetadata(v: Option<Json>, md: ApiMetadata) {
    && v.Some? && v.value.Obj?
    && if MetadataShape(Get(v.value.fields, "client_name"), Get(v.value.fields, "provider_name"),
                        Get(v.value.fields, "models_run"), Get(v.value.fields, "mode"))
       then MetadataReads(Get(v.value.fields, "client_name"), Get(v.value.fields, "provider_name"),
                          Get(v.value.fields, "models_run"), Get(v.value.fields, "mode"), md)
       else MetadataReads(Get(v.value.fields, "clientName"), Get(v.value.fields, "providerName"),
                          Get(v.value.fields, "modelsRun"), Get(v.value.fields, "mode"), md)
  }

  /** `metadataSchema`: the first branch that accepts wins. */
  function ParseMetadata(v: Option<Json>): (r: Parsed<ApiMetadata>)
    ensures r.Ok? <==> (
      && v.Some? && v.value.Obj?
      && (|| MetadataShape(Get(v.value.fields, "client_name"), Get(v.value.fields, "provider_name"),
                           Get(v.value.fields, "models_run"), Get(v.value.fields, "mode"))
          || MetadataShape(Get(v.value.fields, "clientName"), Get(v.value.fields, "providerName"),
                           Get(v.value.fields, "modelsRun"), Get(v.value.fields, "mode"))))
    ensures r.Ok? ==> ReadsAsMetadata(v, r.value)
  {
    var snake := SnakeMetadata(v);
    if snake.Ok? then snake else CamelMetadata(v)
  }

  /** Every list is present and every pillar in it is canonical. */
  predicate CanonicalList(ps: Option<seq<SellingPoint>>) {
    ps.Some? && forall i :: 0 <= i < |ps.value| ==> CanonicalPillar(ps.value[i])
  }

  predicate Canonical(d: ApiResponse) {
    CanonicalList(d.sellingPoints) && CanonicalList(d.camelSellingPoints) && CanonicalList(d.pillars)
  }

  /** The body's members, already looked up, checked field by field in schema order. */
  function ParseMembers(storyId: Option<Json>, summary: Parsed<ApiSummary>, snake: Option<Json>, camel: Option<Json>,
                        pillars: Option<Json>, metadata: Parsed<ApiMetadata>): (r: Parsed<ApiResponse>)
    ensures r.Ok? <==> IsStrMember(storyId) && summary.Ok? && ListAccepted(snake, ParsePillar)
                       && ListAccepted(camel, ParsePillar) && ListAccepted(pillars, ParsePillar) && metadata.Ok?
    ensures r.Ok? ==> Canonical(r.value)
    ensures r.Ok? ==> storyId == Some(Str(r.value.storyId)) && summary == Ok(r.value.summary)
                      && metadata == Ok(r.value.metadata)
    ensures r.Ok? ==> r.value.sellingPoints.Some? && ListReads(snake, ParsePillar, r.value.sellingPoints.value)
                      && r.value.camelSellingPoints.Some? && ListReads(camel, ParsePillar, r.value.camelSellingPoints.value)
                      && r.value.pillars.Some? && ListReads(pillars, ParsePillar, r.value.pillars.value)
  {
    var id :- RequiredString(storyId);
    var s :- summary;
    var sp :- ArrayOrEmpty(snake, ParsePillar);
    var cp :- ArrayOrEmpty(camel, ParsePillar);
    var ps :- ArrayOrEmpty(pillars, ParsePillar);
    var m :- metadata;
    Ok(ApiResponse(id, s, Some(sp), Some(cp), Some(ps), m))
  }

  /** `v` is an object whose members the body schema accepts. */
  predicate IsBody(v: Option<Json>) {
    && v.Some? && v.value.Obj?
    && IsStrMember(Get(v.value.fields, "story_id"))
    && ParseSummary(Get(v.value.fields, "summary")).Ok?
    && ListAccepted(Get(v.value.fields, "selling_points"), ParsePillar)
    && ListAccepted(Get(v.value.fields, "sellingPoints"), ParsePillar)
    && ListAccepted(Get(v.value.fields, "pillars"), ParsePillar)
    && ParseMetadata(Get(v.value.fields, "metadata")).Ok?
  }

  /** `d` is what the body schema reads from the object `v`, member by member. */
  ghost predicate ReadsAsBody(v: Option<Json>, d: ApiResponse) {
    && v.Some? && v.value.Obj? && Canonical(d)
    && Get(v.value.fields, "story_id") == Some(Str(d.storyId))
    && ParseSummary(Get(v.value.fields, "summary")) == Ok(d.summary)
    && ListReads(Get(v.value.fields, "selling_points"), ParsePillar, d.sellingPoints.value)
    && ListReads(Get(v.value.fields, "sellingPoints"), ParsePillar, d.camelSellingPoints.value)
    && ListReads(Get(v.value.fields, "pillars"), ParsePillar, d.pillars.value)
    && ParseMetadata(Get(v.value.fields, "metadata")) == Ok(d.metadata)
  }

  /** An object is read as at most one body. */
  lemma ReadsAsBodyUnique(v: Option<Json>, d: ApiResponse, e: ApiResponse)
    requires ReadsAsBody(v, d) && ReadsAsBody(v, e)
    ensures d == e
  {
    var fs := v.value.fields;
    ListReadsUnique(Get(fs, "selling_points"), ParsePillar, d.sellingPoints.value, e.sellingPoints.value);
    ListReadsUnique(Get(fs, "sellingPoints"), ParsePillar, d.camelSellingPoints.value, e.camelSellingPoints.value);
    ListReadsUnique(Get(fs, "pillars"), ParsePillar, d.pillars.value, e.pillars.value);
  }

  /** The object shape shared by both branches of `responseSchema`. */
  function ParseBody(v: Option<Json>): (r: Parsed<ApiResponse>)
    ensures r.Ok? <==> IsBody(v)
    ensures r.Ok? ==> ReadsAsBody(v, r.value)
  {
    match v
    case Some(Obj(fs)) =>
      ParseMembers(Get(fs, "story_id"), ParseSummary(Get(fs, "summary")), Get(fs, "selling_points"),
                   Get(fs, "sellingPoints"), Get(fs, "pillars"), ParseMetadata(Get(fs, "metadata")))
    case _ => Err(Mismatch)
  }

  /** `d` is what `responseSchema` reads: the payload's own body when it is one, else its `data` member's. */
  ghost predicate ReadsAsEnvelope(raw: Json, d: ApiResponse) {
    if IsBody(Some(raw)) then ReadsAsBody(Some(raw), d)
    else raw.Obj? && ReadsAsBody(Get(raw.fields, "data"), d)
  }

  /** `responseSchema`: the payload itself, else its `data` member, one level only. */
  function ParseEnvelope(raw: Json): (r: Parsed<ApiResponse>)
    ensures r.Ok? <==> IsBody(Some(raw)) || (raw.Obj? && IsBody(Get(raw.fields, "data")))
    ensures r.Ok? ==> Canonical(r.value)
    ensures r.Ok? ==> ReadsAsEnvelope(raw, r.value)
  {
    var direct := ParseBody(Some(raw));
    if direct.Ok? then direct
    else
      match raw
      case Obj(fs) => ParseBody(Get(fs, "data"))
      case _ => Err(Mismatch)
  }

  /** An empty `selling_points` list is replaced by a non-empty `sellingPoints` list. */
  function MergeCamelPillars(d: ApiResponse): (r: ApiResponse)
    requires d.sellingPoints.Some? && d.camelSellingPoints.Some?
    ensures r == d.(sellingPoints := r.sellingPoints) && r.sellingPoints.Some?
    ensures |r.sellingPoints.value| > 0 || |r.camelSellingPoints.value| == 0
    ensures r.sellingPoints == d.sellingPoints || (|d.sellingPoints.value| == 0 && r.sellingPoints == d.camelSellingPoints)
  {
    if |d.sellingPoints.value| == 0 && |d.camelSellingPoints.value| > 0 then
      d.(sellingPoints := d.camelSellingPoints)
    else
      d
  }

  /**
   * `normalizeApiResponsePayload`: the canonical response, or the one fixed
   * error; never a partial value.
   */
  function NormalizePayload(raw: Json): (r: Result<ApiResponse, string>)
    ensures r.Err? ==> r.error == UnexpectedFormat
    ensures r.Ok? <==> ParseEnvelope(raw).Ok?
    ensures r.Ok? ==> Canonical(r.value)
    ensures r.Ok? ==> r.value == MergeCamelPillars(ParseEnvelope(raw).value)
    ensures r.Ok? ==> (r.value.sellingPoints.Some? && r.value.camelSellingPoints.Some?
      && (|r.value.sellingPoints.value| > 0 || |r.value.camelSellingPoints.value| == 0))
  {
    match ParseEnvelope(raw)
    case Ok(d) => Ok(MergeCamelPillars(d))
    case Err(_) => Err(UnexpectedFormat)
  }

  // ------------------------------------------------------ exact readings
  // Each check returns a value exactly when the members it reads spell that
  // value: the converse of the check's own contract.

  /** A member read as a list is a member the check accepts. */
  lemma ListReadsAccepted<T>(v: Option<Json>, item: Json -> Parsed<T>, xs: seq<T>)
    requires ListReads(v, item, xs)
    ensures ListAccepted(v, item)
  {
    if v.Some? {
      var items := v.value.items;
      forall i | 0 <= i < |items|
        ensures item(items[i]).Ok?
      {
        assert item(items[i]) == Ok(xs[i]);
      }
    }
  }

  /** `z.array(item).optional().default([])` returns `xs` exactly when the member reads as `xs`. */
  lemma ListReadingExact<T>(v: Option<Json>, item: Json -> Parsed<T>, xs: seq<T>)
    ensures ArrayOrEmpty(v, item) == Ok(xs) <==> ListReads(v, item, xs)
  {
    if ListReads(v, item, xs) {
      ListReadsAccepted(v, item, xs);
      ListReadsUnique(v, item, ArrayOrEmpty(v, item).value, xs);
    }
  }

  lemma ResponseReadingExact(j: Json, r: QuestionResponse)
    ensures ParseResponse(j) == Ok(r) <==> ReadsAsResponse(j, r)
  {
    if ReadsAsResponse(j, r) {
      var x := ParseResponse(j);
      assert x.Ok?;
      assert ReadsAsResponse(j, x.value);
    }
  }

  lemma QuestionReadingExact(j: Json, q: QuestionEntry)
    ensures ParseQuestion(j) == Ok(q) <==> ReadsAsQuestion(j, q)
  {
    if ReadsAsQuestion(j, q) {
      var fs := j.fields;
      ListReadsAccepted(Get(fs, "assumptions"), StringItem, q.assumptions.value);
      ListReadsAccepted(Get(fs, "responses"), ParseResponse, q.responses.value);
      var x := ParseQuestion(j);
      assert x.Ok?;
      assert ReadsAsQuestion(j, x.value);
      ListReadsUnique(Get(fs, "assumptions"), StringItem, q.assumptions.value, x.value.assumptions.value);
      ListReadsUnique(Get(fs, "responses"), ParseResponse, q.responses.value, x.value.responses.value);
    }
  }

  lemma PillarReadingExact(j: Json, p: SellingPoint)
    ensures ParsePillar(j) == Ok(p) <==> ReadsAsPillar(j, p)
  {
    if ReadsAsPillar(j, p) {
      var fs := j.fields;
      ListReadsAccepted(Get(fs, "questions"), ParseQuestion, p.questions.value);
      var x := ParsePillar(j);
      assert x.Ok?;
      assert ReadsAsPillar(j, x.value);
      ListReadsUnique(Get(fs, "questions"), ParseQuestion, p.questions.value, x.value.questions.value);
    }
  }

  lemma SummaryReadingExact(v: Option<Json>, s: ApiSummary)
    ensures ParseSummary(v) == Ok(s) <==> ReadsAsSummary(v, s)
  {
    if ReadsAsSummary(v, s) {
      var x := ParseSummary(v);
      assert x.Ok?;
      assert ReadsAsSummary(v, x.value);
    }
  }

  /** Members that read as some metadata are members the check accepts. */
  lemma MetadataReadsShape(client: Option<Json>, provider: Option<Json>, models: Option<Json>, mode: Option<Json>,
                           md: ApiMetadata)
    requires MetadataReads(client, provider, models, mode, md)
    ensures MetadataShape(client, provider, models, mode)
  {
    ListReadsAccepted(models, StringItem, md.modelsRun);
    assert mode == Some(Str(md.mode.Label()));
  }

  lemma MetadataReadingExact(v: Option<Json>, md: ApiMetadata)
    ensures ParseMetadata(v) == Ok(md) <==> ReadsAsMetadata(v, md)
  {
    if ReadsAsMetadata(v, md) {
      var fs := v.value.fields;
      var snake := MetadataShape(Get(fs, "client_name"), Get(fs, "provider_name"), Get(fs, "models_run"), Get(fs, "mode"));
      var models := if snake then Get(fs, "models_run") else Get(fs, "modelsRun");
      if !snake {
        MetadataReadsShape(Get(fs, "clientName"), Get(fs, "providerName"), Get(fs, "modelsRun"), Get(fs, "mode"), md);
      }
      var x := ParseMetadata(v);
      assert x.Ok?;
      assert ReadsAsMetadata(v, x.value);
      ListReadsUnique(models, StringItem, md.modelsRun, x.value.modelsRun);
      assert ModeFromLabel(md.mode.Label()) == Some(x.value.mode);
    }
  }

  lemma BodyReadingExact(v: Option<Json>, d: ApiResponse)
    ensures ParseBody(v) == Ok(d) <==> ReadsAsBody(v, d)
  {
    if ReadsAsBody(v, d) {
      var fs := v.value.fields;
      ListReadsAccepted(Get(fs, "selling_points"), ParsePillar, d.sellingPoints.value);
      ListReadsAccepted(Get(fs, "sellingPoints"), ParsePillar, d.camelSellingPoints.value);
      ListReadsAccepted(Get(fs, "pillars"), ParsePillar, d.pillars.value);
      assert IsBody(v);
      ReadsAsBodyUnique(v, ParseBody(v).value, d);
    }
  }

  lemma EnvelopeReadingExact(raw: Json, d: ApiResponse)
    ensures ParseEnvelope(raw) == Ok(d) <==> ReadsAsEnvelope(raw, d)
  {
    if ReadsAsEnvelope(raw, d) {
      var body := if IsBody(Some(raw)) then Some(raw) else Get(raw.fields, "data");
      BodyReadingExact(body, d);
      ReadsAsBodyUnique(body, ParseEnvelope(raw).value, d);
    }
  }

  // ----------------------------------------------------------- conventions

  /** The camelCase alias of each snake_case member of `summary`. */
  function SummaryAlias(key: string): string {
    if key == "total_questions" then "totalQuestions"
    else if key == "ai_provider_recognized_in" then "aiProviderRecognizedIn"
    else key
  }

  /** The camelCase alias of each snake_case member of `metadata` (`mode` has no other spelling). */
  function MetadataAlias(key: string): string {
    if key == "client_name" then "clientName"
    else if key == "provider_name" then "providerName"
    else if key == "models_run" then "modelsRun"
    else key
  }

  /**
   * Writing a snake_case `summary` in camelCase changes nothing: it is
   * accepted or rejected alike, and read as the same counts.
   */
  lemma SummaryConventionIrrelevant(fs: seq<(string, Json)>)
    requires KeyAbsent(fs, "totalQuestions") && KeyAbsent(fs, "aiProviderRecognizedIn")
    ensures ParseSummary(Some(Obj(RenameKeys(fs, SummaryAlias)))) == ParseSummary(Some(Obj(fs)))
  {
    var r := RenameKeys(fs, SummaryAlias);
    var snake := SnakeSummary(Some(Obj(fs)));
    assert ParseSummary(Some(Obj(r))) == snake by {
      assert SnakeSummary(Some(Obj(r))) == Err(Mismatch) by {
        GetRenamedAbsent(fs, SummaryAlias, "total_questions");
      }
      assert Get(r, "totalQuestions") == Get(fs, "total_questions") by {
        GetRenamed(fs, SummaryAlias, "total_questions");
      }
      assert Get(r, "aiProviderRecognizedIn") == Get(fs, "ai_provider_recognized_in") by {
        GetRenamed(fs, SummaryAlias, "ai_provider_recognized_in");
      }
    }
    assert ParseSummary(Some(Obj(fs))) == snake by {
      assert CamelSummary(Some(Obj(fs))) == Err(Mismatch) by {
        assert Get(fs, "totalQuestions") == None;
      }
      if snake.Err? {
        assert snake.error == Mismatch;
      }
    }
  }

  /** The camelCase branch reads the renamed members exactly as the snake_case branch reads the originals. */
  lemma CamelMetadataOfRenamed(fs: seq<(string, Json)>)
    requires KeyAbsent(fs, "clientName") && KeyAbsent(fs, "providerName") && KeyAbsent(fs, "modelsRun")
    ensures CamelMetadata(Some(Obj(RenameKeys(fs, MetadataAlias)))) == SnakeMetadata(Some(Obj(fs)))
  {
    var r := RenameKeys(fs, MetadataAlias);
    assert Get(r, "clientName") == Get(fs, "client_name") by { GetRenamed(fs, MetadataAlias, "client_name"); }
    assert Get(r, "providerName") == Get(fs, "provider_name") by { GetRenamed(fs, MetadataAlias, "provider_name"); }
    assert Get(r, "modelsRun") == Get(fs, "models_run") by { GetRenamed(fs, MetadataAlias, "models_run"); }
    assert Get(r, "mode") == Get(fs, "mode") by { GetRenamed(fs, MetadataAlias, "mode"); }
  }

  /** The same for `metadata`: the camelCase spelling is rewritten to the snake_case record. */
  lemma MetadataConventionIrrelevant(fs: seq<(string, Json)>)
    requires KeyAbsent(fs, "clientName") && KeyAbsent(fs, "providerName") && KeyAbsent(fs, "modelsRun")
    ensures ParseMetadata(Some(Obj(RenameKeys(fs, MetadataAlias)))) == ParseMetadata(Some(Obj(fs)))
  {
    var r := RenameKeys(fs, MetadataAlias);
    var snake := SnakeMetadata(Some(Obj(fs)));
    assert ParseMetadata(Some(Obj(r))) == snake by {
      assert SnakeMetadata(Some(Obj(r))) == Err(Mismatch) by {
        GetRenamedAbsent(fs, MetadataAlias, "client_name");
      }
      CamelMetadataOfRenamed(fs);
    }
    assert ParseMetadata(Some(Obj(fs))) == snake by {
      assert CamelMetadata(Some(Obj(fs))) == Err(Mismatch) by {
        assert Get(fs, "clientName") == None;
      }
      if snake.Err? {
        assert snake.error == Mismatch;
      }
    }
  }

  /** When both spellings are present and valid, the snake_case values win. */
  lemma SnakeCaseWins(a: int, b: int, c: int, d: int)
    ensures ParseSummary(Some(Obj([("totalQuestions", Num(c)), ("aiProviderRecognizedIn", Num(d)),
                                   ("total_questions", Num(a)), ("ai_provider_recognized_in", Num(b))])))
            == Ok(ApiSummary(a, b))
  {
    var fs := [("totalQuestions", Num(c)), ("aiProviderRecognizedIn", Num(d)),
               ("total_questions", Num(a)), ("ai_provider_recognized_in", Num(b))];
    GetAt(fs, 2);
    GetAt(fs, 3);
  }

  /** Mixing the two conventions inside `summary` is rejected. */
  lemma MixedSummaryRejected(a: Json, b: Json)
    ensures ParseSummary(Some(Obj([("total_questions", a), ("aiProviderRecognizedIn", b)]))).Err?
    ensures ParseSummary(Some(Obj([("totalQuestions", a), ("ai_provider_recognized_in", b)]))).Err?
  {
  }

  /** Mixing the two conventions inside `metadata` is rejected. */
  lemma MixedMetadataRejected(c: Json, p: Json, m: Json, mode: Json)
    ensures ParseMetadata(Some(Obj([("client_name", c), ("providerName", p), ("models_run", m), ("mode", mode)]))).Err?
  {
    var fs := [("client_name", c), ("providerName", p), ("models_run", m), ("mode", mode)];
    assert SnakeMetadata(Some(Obj(fs))).Err? by {
      assert Get(fs, "provider_name") == None;
    }
    assert CamelMetadata(Some(Obj(fs))).Err? by {
      assert Get(fs, "clientName") == None;
    }
  }

  /** A count spelled by a word (such as "many") is a mismatch: `Number` gives NaN. */
  lemma NonNumericCountRejected(s: string)
    requires |s| > 0 && Text.IsTrimmed(s)
    requires !Text.IsDigit(s[0]) && s[0] != '-' && s[0] != '+'
    ensures CoerceNumber(Some(Str(s))).Err?
  {
    Text.TrimOfTrimmed(s);
  }

  /** A mode other than the two labels, or not a string at all, is a mismatch. */
  lemma UnknownModeRejected(s: string, v: Json)
    requires s != "stub" && s != "live"
    requires !v.Str?
    ensures ModeLiteral(Some(Str(s))).Err?
    ensures ModeLiteral(Some(v)).Err? && ModeLiteral(None).Err?
  {
  }

  /** `client_name` must be present: absence is rejected... */
  lemma ClientNameRequired(p: string)
    ensures ParseMetadata(Some(Obj([("provider_name", Str(p)), ("models_run", Arr([])), ("mode", Str("live"))]))).Err?
  {
  }

  /** ...while `null` is accepted and read as no client. */
  lemma ClientNameNullable(p: string)
    ensures ParseMetadata(Some(Obj([("client_name", Null), ("provider_name", Str(p)), ("models_run", Arr([])), ("mode", Str("live"))])))
            == Ok(ApiMetadata(None, p, [], Live))
  {
    var fs := [("client_name", Null), ("provider_name", Str(p)), ("models_run", Arr([])), ("mode", Str("live"))];
    assert MetadataFrom(Some(Null), Some(Str(p)), Some(Arr([])), Some(Str("live"))) == Ok(ApiMetadata(None, p, [], Live)) by {
      assert RequiredArray(Some(Arr([])), StringItem) == Ok([]);
      assert ModeLiteral(Some(Str("live"))) == Ok(Live);
    }
    assert Get(fs, "client_name") == Some(Null) by { GetAt(fs, 0); }
    assert Get(fs, "provider_name") == Some(Str(p)) by { GetAt(fs, 1); }
    assert Get(fs, "models_run") == Some(Arr([])) by { GetAt(fs, 2); }
    assert Get(fs, "mode") == Some(Str("live")) by { GetAt(fs, 3); }
  }

  /** Absent optional members of a pillar take their defaults. */
  lemma PillarDefaults(fs: seq<(string, Json)>)
    requires ParsePillar(Obj(fs)).Ok?
    ensures KeyAbsent(fs, "summary") ==> ParsePillar(Obj(fs)).value.summary == Some("")
    ensures KeyAbsent(fs, "ai_provider_inferred") ==> ParsePillar(Obj(fs)).value.aiProviderInferred == Some(false)
    ensures KeyAbsent(fs, "questions") ==> ParsePillar(Obj(fs)).value.questions == Some([])
  {
  }

  /** Absent optional members of a question take their defaults; its `id` stays optional. */
  lemma QuestionDefaults(fs: seq<(string, Json)>)
    requires ParseQuestion(Obj(fs)).Ok?
    ensures KeyAbsent(fs, "ai_provider_inferred") ==> ParseQuestion(Obj(fs)).value.aiProviderInferred == Some(false)
    ensures KeyAbsent(fs, "assumptions") ==> ParseQuestion(Obj(fs)).value.assumptions == Some([])
    ensures KeyAbsent(fs, "responses") ==> ParseQuestion(Obj(fs)).value.responses == Some([])
    ensures KeyAbsent(fs, "id") ==> ParseQuestion(Obj(fs)).value.id == None
  {
  }

  /** A response's flags get no default at validation: absent stays absent. */
  lemma ResponseFlagsStayOptional(fs: seq<(string, Json)>)
    requires ParseResponse(Obj(fs)).Ok?
    ensures KeyAbsent(fs, "inferred") ==> ParseResponse(Obj(fs)).value.inferred == None
    ensures KeyAbsent(fs, "ai_provider_inferred") ==> ParseResponse(Obj(fs)).value.aiProviderInferred == None
  {
  }

  /** `story_id` has no camelCase alias: a payload carrying only `storyId` is rejected. */
  lemma StoryIdHasNoAlias(fs: seq<(string, Json)>)
    requires KeyAbsent(fs, "story_id") && KeyAbsent(fs, "data")
    ensures NormalizePayload(Obj(fs)) == Err(UnexpectedFormat)
  {
  }

  /** All or nothing: one bad summary or one bad pillar rejects the whole payload. */
  lemma NestedMismatchRejects(fs: seq<(string, Json)>, items: seq<Json>, k: nat)
    requires KeyAbsent(fs, "data")
    requires ParseSummary(Get(fs, "summary")).Err?
      || (Get(fs, "selling_points") == Some(Arr(items)) && k < |items| && ParsePillar(items[k]).Err?)
    ensures NormalizePayload(Obj(fs)) == Err(UnexpectedFormat)
  {
  }
}
