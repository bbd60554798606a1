/** The deterministic code of services/geminiService.ts around the calls to the
    hosted model: attachment payloads, request assembly, and the normalisation of
    the model's reply. The model call is an oracle: its outcome is a parameter,
    either a thrown `Failure` or the reply text (absent when the reply has none).
    `JSON.parse` is a parameter too, a function that may fail. */
module GeminiService {
  import opened Types
  import opened Text

  /** A value produced by `JSON.parse`. */
  datatype Json =
    | JNull
    | JBool(b: bool)
    | JNum(n: real)
    | JStr(s: string)
    | JArr(items: seq<Json>)
    | JObj(fields: map<string, Json>)

  /** `JSON.parse`: `None` when it throws. */
  type Parser = string -> Option<Json>

  /** What the SDK call yields: a thrown error, or the optional `response.text`. */
  type Reply = Result<Option<string>, Failure>

  const ModelId: string := "gemini-2.5-flash"
  const ProcessingError: string := "Lỗi khi xử lý dữ liệu từ AI. Vui lòng thử lại với nội dung rõ ràng hơn."
  const NoResponseError: string := "Không nhận được phản hồi từ AI"
  const CritiqueFallback: string := "Không thể tạo phản hồi cho phản biện này."
  const TransformParseError: string := "Lỗi khi chuyển đổi dạng thức câu hỏi."
  const TransformNoResponseError: string := "Không nhận được phản hồi chuyển đổi từ AI"
  const RegenerateParseError: string := "Lỗi khi làm mới câu hỏi."
  const RegenerateNoResponseError: string := "Không nhận được phản hồi làm mới từ AI"

  // ---------------------------------------------------------------------------
  // Attachments

  /** `dataUrl.split(',')[1]`: the text after the first comma of a data URL, up to
      any further comma; absent (`undefined`) when there is no comma. */
  function DataUrlPayload(dataUrl: string): (payload: Option<string>)
    ensures payload.None? <==> ',' !in dataUrl
    ensures payload.Some? ==> ',' !in payload.value
  {
    var fields := Split(dataUrl, ',');
    SplitCount(dataUrl, ',');
    if |fields| >= 2 then Some(fields[1]) else None
  }

  /** For a data URL `header,rest` the payload is `rest` up to its first comma,
      and all of `rest` when it holds none (a base64 payload never does). */
  lemma DataUrlPayloadAfterHeader(header: string, rest: string)
    requires ',' !in header
    ensures DataUrlPayload(header + "," + rest) == Some(Split(rest, ',')[0])
    ensures ',' !in rest ==> DataUrlPayload(header + "," + rest) == Some(rest)
  {
    assert header + "," + rest == header + ([','] + rest);
    SplitAppend(header, [','] + rest, ',');
    assert ([','] + rest)[1..] == rest;
    if ',' !in rest {
      SplitAppend(rest, "", ',');
      assert rest + "" == rest;
    }
  }

  // ---------------------------------------------------------------------------
  // Requests

  /** What each prompt interpolates; the instruction wording around it is not modelled. */
  datatype Prompt =
    | GeneratePrompt(format: QuestionFormat, input: string)
    | TransformPrompt(current: AnalysisResult, anchor: string, target: QuestionFormat)
    | RegeneratePrompt(current: AnalysisResult, anchor: string, format: QuestionFormat)
    | CritiquePrompt(stem: string, format: QuestionFormat, level: CognitiveLevel,
                     competencyCode: string, critique: string)

  datatype Part = TextPart(prompt: Prompt) | InlineData(mimeType: string, data: Option<string>)

  /** The response schema sent with a request: the batch wrapper, one result, or none (prose). */
  datatype Schema = BatchSchema | SingleSchema | NoSchema

  datatype Request = Request(model: string, parts: seq<Part>, schema: Schema)

  function AttachmentPart(file: File): Part
  {
    InlineData(file.mimeType, DataUrlPayload(file.dataUrl))
  }

  /** The parts of a generate request: the text first, then the image, then the document. */
  function GenerateParts(input: string, format: QuestionFormat, image: Option<File>, document: Option<File>)
    : (parts: seq<Part>)
    ensures |parts| == 1 + (if image.Some? then 1 else 0) + (if document.Some? then 1 else 0)
    ensures parts[0] == TextPart(GeneratePrompt(format, input))
    ensures image.Some? ==> parts[1] == AttachmentPart(image.value)
    ensures document.Some? ==> parts[|parts| - 1] == AttachmentPart(document.value)
    ensures forall i :: 1 <= i < |parts| ==> parts[i].InlineData?
  {
    [TextPart(GeneratePrompt(format, input))]
    + (if image.Some? then [AttachmentPart(image.value)] else [])
    + (if document.Some? then [AttachmentPart(document.value)] else [])
  }

  /** The batch request: the prompt and attachments, under the batch schema. */
  function GenerateRequest(input: string, format: QuestionFormat, image: Option<File>, document: Option<File>)
    : (request: Request)
    ensures request.model == ModelId && request.schema == BatchSchema
    ensures |request.parts| == 1 + (if image.Some? then 1 else 0) + (if document.Some? then 1 else 0)
    ensures request.parts[0] == TextPart(GeneratePrompt(format, input))
  {
    Request(ModelId, GenerateParts(input, format, image, document), BatchSchema)
  }

  /** The text later variants are derived from: the captured original question when
      it is a non-empty string, else the generated stem. */
  function AnchorText(current: AnalysisResult): (anchor: string)
    ensures Present(current.source.originalQuestionText) ==> anchor == current.source.originalQuestionText.value
    ensures !Present(current.source.originalQuestionText) ==> anchor == current.generated.stem
  {
    match current.source.originalQuestionText
    case Some(text) => if text != "" then text else current.generated.stem
    case None => current.generated.stem
  }

  /** Once captured, the anchor survives replacing the generated question. */
  lemma AnchorSurvivesNewQuestion(current: AnalysisResult, next: GeneratedQuestion)
    requires Present(current.source.originalQuestionText)
    ensures AnchorText(AnalysisResult(current.source, next)) == AnchorText(current)
  {
  }

  function TransformRequest(current: AnalysisResult, target: QuestionFormat): (request: Request)
    ensures request.model == ModelId
    ensures request.parts == [TextPart(TransformPrompt(current, AnchorText(current), target))]
    ensures request.schema == SingleSchema
  {
    Request(ModelId, [TextPart(TransformPrompt(current, AnchorText(current), target))], SingleSchema)
  }

  /** Regeneration asks for the format the question already has. */
  function RegenerateRequest(current: AnalysisResult): (request: Request)
    ensures request.model == ModelId
    ensures request.parts == [TextPart(RegeneratePrompt(current, AnchorText(current), current.generated.metadata.format))]
    ensures request.schema == SingleSchema
  {
    var format := current.generated.metadata.format;
    Request(ModelId, [TextPart(RegeneratePrompt(current, AnchorText(current), format))], SingleSchema)
  }

  /** A critique asks for prose about the generated question's stem, format, level and code. */
  function CritiqueRequest(current: AnalysisResult, critique: string): (request: Request)
    ensures request.model == ModelId && request.schema == NoSchema && |request.parts| == 1
    ensures request.parts[0].TextPart? && request.parts[0].prompt.CritiquePrompt?
    ensures request.parts[0].prompt.critique == critique
    ensures request.parts[0].prompt.stem == current.generated.stem
    ensures request.parts[0].prompt.format == current.generated.metadata.format
    ensures request.parts[0].prompt.level == current.generated.metadata.level
    ensures request.parts[0].prompt.competencyCode == current.generated.metadata.competencyCode
  {
    var g := current.generated;
    Request(ModelId,
            [TextPart(CritiquePrompt(g.stem, g.metadata.format, g.metadata.level, g.metadata.competencyCode, critique))],
            NoSchema)
  }
  /** The critique prompt quotes only the generated question and the critique: the analysis
      of the original question is not sent. */
  lemma CritiqueIgnoresSourceAnalysis(s1: SourceAnalysis, s2: SourceAnalysis, g: GeneratedQuestion, critique: string)
    ensures CritiqueRequest(AnalysisResult(s1, g), critique) == CritiqueRequest(AnalysisResult(s2, g), critique)
  {
  }

  // ---------------------------------------------------------------------------
  // Reply normalisation

  /** JavaScript truthiness of a property value; `None` is `undefined`. */
  predicate Truthy(v: Option<Json>)
  {
    match v
    case None => false
    case Some(j) =>
      match j
      case JNull => false
      case JBool(b) => b
      case JNum(n) => n != 0.0
      case JStr(s) => s != ""
      case JArr(_) => true
      case JObj(_) => true
  }

  /** Property access `v.key` on a value that is not null. */
  function Member(v: Json, key: string): Option<Json>
  {
    if v.JObj? && key in v.fields then Some(v.fields[key]) else None
  }

  /** JavaScript `a || b`. */
  function Or(a: Option<Json>, b: Option<Json>): (r: Option<Json>)
    ensures Truthy(r) <==> Truthy(a) || Truthy(b)
  {
    if Truthy(a) then a else b
  }

  /** An entry with its two parts resolved from the current or the legacy key. */
  datatype Resolved = Resolved(source: Option<Json>, generated: Option<Json>)

  /** Each part is the value under the current key or under the legacy key, and it is
      truthy exactly when one of the two is. */
  function Resolve(item: Json): (r: Resolved)
    requires item != JNull
    ensures r.source == Member(item, "source") || r.source == Member(item, "sourceAnalysis")
    ensures Truthy(r.source) <==> Truthy(Member(item, "source")) || Truthy(Member(item, "sourceAnalysis"))
    ensures r.generated == Member(item, "generated") || r.generated == Member(item, "generatedQuestion")
    ensures Truthy(r.generated) <==> Truthy(Member(item, "generated")) || Truthy(Member(item, "generatedQuestion"))
  {
    Resolved(Or(Member(item, "source"), Member(item, "sourceAnalysis")),
             Or(Member(item, "generated"), Member(item, "generatedQuestion")))
  }

  predicate Complete(r: Resolved)
  {
    Truthy(r.source) && Truthy(r.generated)
  }

  /** `results.map(resolve).filter(complete)`, for a list without null entries. */
  function KeepComplete(items: seq<Json>): (kept: seq<Resolved>)
    requires JNull !in items
    ensures |kept| <= |items|
    ensures forall r :: r in kept ==> Complete(r)
    decreases |items|
  {
    if items == [] then []
    else
      var front := items[..|items| - 1];
      var last := Resolve(items[|items| - 1]);
      assert items == front + [items[|items| - 1]];
      KeepComplete(front) + (if Complete(last) then [last] else [])
  }

  /** Filtering distributes over concatenation, so the kept entries keep their input order. */
  lemma {:induction false} KeepCompleteAppend(a: seq<Json>, b: seq<Json>)
    requires JNull !in a && JNull !in b
    ensures JNull !in a + b
    ensures KeepComplete(a + b) == KeepComplete(a) + KeepComplete(b)
    decreases |b|
  {
    if b == [] {
      assert a + b == a;
    } else {
      var b' := b[..|b| - 1];
      assert (a + b)[..|a + b| - 1] == a + b';
      KeepCompleteAppend(a, b');
    }
  }

  /** A single entry is kept, resolved, exactly when both its parts resolve to truthy values. */
  lemma KeepCompleteSingle(x: Json)
    requires x != JNull
    ensures KeepComplete([x]) == if Complete(Resolve(x)) then [Resolve(x)] else []
  {
    assert [x][..0] == [];
  }

  /** When every entry is complete, each is kept, resolved and in order; when none is,
      nothing is kept. */
  lemma {:induction false} KeepCompleteAllOrNone(items: seq<Json>)
    requires JNull !in items
    ensures (forall i :: 0 <= i < |items| ==> Complete(Resolve(items[i])))
            ==> KeepComplete(items) == seq(|items|, i requires 0 <= i < |items| => Resolve(items[i]))
    ensures (forall i :: 0 <= i < |items| ==> !Complete(Resolve(items[i]))) ==> KeepComplete(items) == []
    decreases |items|
  {
    if items != [] {
      var front := items[..|items| - 1];
      KeepCompleteAllOrNone(front);
      var all := seq(|items|, i requires 0 <= i < |items| => Resolve(items[i]));
      var allFront := seq(|front|, i requires 0 <= i < |front| => Resolve(front[i]));
      assert all == allFront + [Resolve(items[|items| - 1])];
    }
  }

  /** The batch inside a parsed reply: the `analysisResults` array when there is one,
      else the reply itself when it is an array, else nothing. */
  function Batch(top: Json): (items: seq<Json>)
    requires top != JNull
    ensures Member(top, "analysisResults").Some? && Member(top, "analysisResults").value.JArr?
            ==> items == Member(top, "analysisResults").value.items
    ensures top.JArr? ==> items == top.items
    ensures !top.JArr? && !(Member(top, "analysisResults").Some? && Member(top, "analysisResults").value.JArr?)
            ==> items == []
  {
    var wrapped := Member(top, "analysisResults");
    if wrapped.Some? && wrapped.value.JArr? then wrapped.value.items
    else if top.JArr? then top.items
    else []
  }

  /** `trimmed.replace(/^```json\s*\/, "").replace(/\s*```$/, "")` and its bare-fence twin. */
  function StripFence(trimmed: string): (stripped: string)
    ensures !StartsWith(trimmed, "```") ==> stripped == trimmed
    ensures |stripped| <= |trimmed|
  {
    if StartsWith(trimmed, "```json") then DropClosingFence(TrimStart(trimmed[7..]))
    else if StartsWith(trimmed, "```") then DropClosingFence(TrimStart(trimmed[3..]))
    else trimmed
  }

  /** `.replace(/\s*```$/, "")`: a final fence and the whitespace before it. */
  function DropClosingFence(s: string): (dropped: string)
    ensures !EndsWith(s, "```") ==> dropped == s
    ensures EndsWith(s, "```") ==> |dropped| <= |s| - 3 && dropped == s[..|dropped|]
  {
    if EndsWith(s, "```") then TrimEnd(s[..|s| - 3]) else s
  }

  /** The text `JSON.parse` receives in the generate operation. */
  function CleanText(raw: string): (clean: string)
    ensures !StartsWith(Trim(raw), "```") ==> clean == Trim(raw)
    ensures |clean| <= |Trim(raw)|
  {
    StripFence(Trim(raw))
  }

  /** The outcome of `generateSimilarQuestion` once the model has replied. A thrown
      reply passes through; a missing or empty text, a parse failure, a null reply
      and a null entry each fail as a whole, without a partial list. */
  function GenerateOutcome(reply: Reply, parse: Parser): (outcome: Result<seq<Resolved>, Failure>)
    ensures reply.Err? ==> outcome == Err(reply.error)
    ensures reply.Ok? && outcome.Err? ==>
              outcome.error == Failure(Some(NoResponseError)) || outcome.error == Failure(Some(ProcessingError))
    ensures reply.Ok? && outcome.Err? ==> (outcome.error == Failure(Some(NoResponseError)) <==> !Present(reply.value))
    ensures reply.Ok? && !Present(reply.value) ==> outcome == Err(Failure(Some(NoResponseError)))
    ensures reply.Ok? && Present(reply.value) ==>
              var parsed := parse(CleanText(reply.value.value));
              (outcome == Err(Failure(Some(ProcessingError))) <==>
                 parsed.None? || parsed.value == JNull || JNull in Batch(parsed.value))
    ensures reply.Ok? && Present(reply.value) ==>
              var parsed := parse(CleanText(reply.value.value));
              parsed.Some? && parsed.value != JNull && JNull !in Batch(parsed.value) ==>
                outcome == Ok(KeepComplete(Batch(parsed.value)))
    ensures outcome.Ok? ==> forall r :: r in outcome.value ==> Complete(r)
  {
    match reply
    case Err(e) => Err(e)
    case Ok(text) =>
      if !Present(text) then Err(Failure(Some(NoResponseError)))
      else
        match parse(CleanText(text.value))
        case None => Err(Failure(Some(ProcessingError)))
        case Some(top) =>
          if top == JNull then Err(Failure(Some(ProcessingError)))
          else
            var items := Batch(top);
            if JNull in items then Err(Failure(Some(ProcessingError)))
            else Ok(KeepComplete(items))
  }

  /** `generateSimilarQuestion` with the SDK call replaced by its `reply`. */
  method GenerateSimilarQuestion(input: string, format: QuestionFormat, image: Option<File>,
                                 document: Option<File>, reply: Reply, parse: Parser)
    returns (request: Request, outcome: Result<seq<Resolved>, Failure>)
    ensures request == GenerateRequest(input, format, image, document)
    ensures outcome == GenerateOutcome(reply, parse)
  {
    request := BuildGenerateRequest(input, format, image, document);
    outcome := NormalizeGenerateReply(reply, parse);
  }

  /** The parts are pushed in order: the prompt, then each attachment that is present. */
  method BuildGenerateRequest(input: string, format: QuestionFormat, image: Option<File>, document: Option<File>)
    returns (request: Request)
    ensures request == GenerateRequest(input, format, image, document)
  {
    var parts: seq<Part> := [];
    parts := parts + [TextPart(GeneratePrompt(format, input))];
    if image.Some? {
      var data := DataUrlPayload(image.value.dataUrl);
      parts := parts + [InlineData(image.value.mimeType, data)];
    }
    if document.Some? {
      var data := DataUrlPayload(document.value.dataUrl);
      parts := parts + [InlineData(document.value.mimeType, data)];
    }
    request := Request(ModelId, parts, BatchSchema);
  }

  /** The reply text is trimmed, unfenced, parsed, unwrapped and filtered step by step. */
  method NormalizeGenerateReply(reply: Reply, parse: Parser) returns (outcome: Result<seq<Resolved>, Failure>)
    ensures outcome == GenerateOutcome(reply, parse)
  {
    if reply.Err? {
      return Err(reply.error);
    }
    if !Present(reply.value) {
      return Err(Failure(Some(NoResponseError)));
    }
    var cleanText := CleanReplyText(reply.value.value);
    var parsed := parse(cleanText);
    if parsed.None? || parsed.value == JNull {
      return Err(Failure(Some(ProcessingError)));
    }
    var top := parsed.value;
    var results: seq<Json> := [];
    var wrapped := Member(top, "analysisResults");
    if wrapped.Some? && wrapped.value.JArr? {
      results := wrapped.value.items;
    } else if top.JArr? {
      results := top.items;
    }
    assert results == Batch(top);
    if JNull in results {
      outcome := Err(Failure(Some(ProcessingError)));
    } else {
      outcome := Ok(KeepComplete(results));
    }
  }

  /** The trimming and the two fence replacements, step by step. */
  method CleanReplyText(raw: string) returns (cleanText: string)
    ensures cleanText == CleanText(raw)
  {
    cleanText := Trim(raw);
    if StartsWith(cleanText, "```json") {
      cleanText := DropClosingFence(TrimStart(cleanText[7..]));
    } else if StartsWith(cleanText, "```") {
      cleanText := DropClosingFence(TrimStart(cleanText[3..]));
    }
  }

  /** A trimmed body is its own cleaned text as long as it does not open with a fence. */
  lemma CleanBody(body: string)
    requires body != [] && !IsWhitespace(body[0]) && !IsWhitespace(body[|body| - 1])
    requires !StartsWith(body, "```")
    ensures CleanText(body) == body
  {
    TrimPadded("", body, "");
    assert "" + body + "" == body;
  }

  /** Behind the opening marker: the whitespace after it, the body, the whitespace and the
      closing marker are reduced to the body. */
  lemma FenceInterior(w2: string, body: string, w3: string)
    requires AllWhitespace(w2) && AllWhitespace(w3)
    requires body != [] && !IsWhitespace(body[0]) && !IsWhitespace(body[|body| - 1])
    ensures DropClosingFence(TrimStart(w2 + (body + w3 + "```"))) == body
  {
    var inner := body + w3 + "```";
    TrimStartPadded(w2, inner);
    assert inner[|inner| - 3..] == "```";
    assert inner[..|inner| - 3] == body + w3;
    TrimEndPadded(body, w3);
  }

  lemma JsonFenceCleans(w1: string, w2: string, body: string, w3: string, w4: string)
    requires AllWhitespace(w1) && AllWhitespace(w2) && AllWhitespace(w3) && AllWhitespace(w4)
    requires body != [] && !IsWhitespace(body[0]) && !IsWhitespace(body[|body| - 1])
    ensures CleanText(w1 + "```json" + w2 + body + w3 + "```" + w4) == body
  {
    var inner := body + w3 + "```";
    var fenced := "```json" + (w2 + inner);
    PaddedFence(w1, "```json", w2, body, w3, w4);
    assert fenced[..7] == "```json" && fenced[7..] == w2 + inner;
    FenceInterior(w2, body, w3);
  }

  /** Text after a bare opening marker that begins with whitespace or with a letter other
      than `j` does not spell the `json` tag. */
  lemma NoJsonTag(w2: string, inner: string)
    requires AllWhitespace(w2) && inner != []
    requires w2 != [] || inner[0] != 'j'
    ensures !StartsWith(w2 + inner, "json")
  {
    var rest := w2 + inner;
    assert rest[0] == (if w2 != [] then w2[0] else inner[0]);
    assert rest[0] != 'j';
    assert |"json"| <= |rest| ==> rest[..4][0] == rest[0];
  }

  lemma BareFenceCleans(w1: string, w2: string, body: string, w3: string, w4: string)
    requires AllWhitespace(w1) && AllWhitespace(w2) && AllWhitespace(w3) && AllWhitespace(w4)
    requires body != [] && !IsWhitespace(body[0]) && !IsWhitespace(body[|body| - 1])
    requires w2 != [] || body[0] != 'j'
    ensures CleanText(w1 + "```" + w2 + body + w3 + "```" + w4) == body
  {
    var inner := body + w3 + "```";
    var fenced := "```" + (w2 + inner);
    PaddedFence(w1, "```", w2, body, w3, w4);
    BareOpening(w2, inner);
    FenceInterior(w2, body, w3);
  }

  /** The reply regrouped: the padding around the fenced text, which trimming removes. */
  lemma PaddedFence(w1: string, opening: string, w2: string, body: string, w3: string, w4: string)
    requires AllWhitespace(w1) && AllWhitespace(w4)
    requires opening != [] && !IsWhitespace(opening[0])
    ensures Trim(w1 + opening + w2 + body + w3 + "```" + w4) == opening + (w2 + (body + w3 + "```"))
  {
    var fenced := opening + (w2 + (body + w3 + "```"));
    assert w1 + opening + w2 + body + w3 + "```" + w4 == w1 + fenced + w4;
    TrimPadded(w1, fenced, w4);
  }

  /** A bare opening marker not followed by the `json` tag is stripped as a bare fence. */
  lemma BareOpening(w2: string, inner: string)
    requires AllWhitespace(w2) && inner != []
    requires w2 != [] || inner[0] != 'j'
    ensures StripFence("```" + (w2 + inner)) == DropClosingFence(TrimStart(w2 + inner))
  {
    var fenced := "```" + (w2 + inner);
    assert fenced[..3] == "```" && fenced[3..] == w2 + inner;
    assert !StartsWith(fenced, "```json") by {
      NoJsonTag(w2, inner);
      assert "```json" == "```" + "json";
      StartsWithConcat(fenced, "```", "json");
    }
  }

  /** A reply wrapped in a Markdown fence tagged `json` yields what the bare JSON text
      would, whatever whitespace surrounds the fence markers. */
  lemma JsonFenceIsTransparent(w1: string, w2: string, body: string, w3: string, w4: string, parse: Parser)
    requires AllWhitespace(w1) && AllWhitespace(w2) && AllWhitespace(w3) && AllWhitespace(w4)
    requires body != [] && !IsWhitespace(body[0]) && !IsWhitespace(body[|body| - 1])
    requires !StartsWith(body, "```")
    ensures GenerateOutcome(Ok(Some(w1 + "```json" + w2 + body + w3 + "```" + w4)), parse)
            == GenerateOutcome(Ok(Some(body)), parse)
  {
    JsonFenceCleans(w1, w2, body, w3, w4);
    CleanBody(body);
  }

  /** The same for a bare fence, unless the body begins right after the fence with `j`
      (as `json` would, which the tagged-fence rule then swallows). */
  lemma BareFenceIsTransparent(w1: string, w2: string, body: string, w3: string, w4: string, parse: Parser)
    requires AllWhitespace(w1) && AllWhitespace(w2) && AllWhitespace(w3) && AllWhitespace(w4)
    requires body != [] && !IsWhitespace(body[0]) && !IsWhitespace(body[|body| - 1])
    requires !StartsWith(body, "```")
    requires w2 != [] || body[0] != 'j'
    ensures GenerateOutcome(Ok(Some(w1 + "```" + w2 + body + w3 + "```" + w4)), parse)
            == GenerateOutcome(Ok(Some(body)), parse)
  {
    BareFenceCleans(w1, w2, body, w3, w4);
    CleanBody(body);
  }

  /** A bare array is accepted as the batch, exactly as if it were wrapped in `analysisResults`. */
  lemma BareArrayIsTheBatch(xs: seq<Json>)
    ensures Batch(JArr(xs)) == Batch(JObj(map["analysisResults" := JArr(xs)])) == xs
  {
  }

  /** A parsed reply that holds no array is an empty success, not an error. */
  lemma NoArrayIsEmptySuccess(reply: Reply, parse: Parser)
    requires reply.Ok? && Present(reply.value)
    requires parse(CleanText(reply.value.value)).Some?
    requires var top := parse(CleanText(reply.value.value)).value;
             top != JNull && !top.JArr? &&
             !(Member(top, "analysisResults").Some? && Member(top, "analysisResults").value.JArr?)
    ensures GenerateOutcome(reply, parse) == Ok([])
  {
  }

  /** A null entry anywhere in the batch fails the whole reply. */
  lemma NullEntryFailsBatch(reply: Reply, parse: Parser)
    requires reply.Ok? && Present(reply.value)
    requires parse(CleanText(reply.value.value)).Some?
    requires var top := parse(CleanText(reply.value.value)).value; top != JNull && JNull in Batch(top)
    ensures GenerateOutcome(reply, parse) == Err(Failure(Some(ProcessingError)))
  {
  }

  /** Renames the legacy keys of an entry to the current ones. */
  function CurrentKeys(fields: map<string, Json>): map<string, Json>
  {
    var renamed := fields - {"sourceAnalysis", "generatedQuestion"};
    var withSource := if "sourceAnalysis" in fields then renamed["source" := fields["sourceAnalysis"]] else renamed;
    if "generatedQuestion" in fields then withSource["generated" := fields["generatedQuestion"]] else withSource
  }

  /** An entry written with the legacy keys `sourceAnalysis`/`generatedQuestion` is kept
      exactly when, and resolved exactly as, the same entry with the current keys. */
  lemma LegacyKeysResolveAlike(fields: map<string, Json>)
    requires "source" !in fields && "generated" !in fields
    ensures Complete(Resolve(JObj(fields))) <==> Complete(Resolve(JObj(CurrentKeys(fields))))
    ensures Complete(Resolve(JObj(fields))) ==> Resolve(JObj(fields)) == Resolve(JObj(CurrentKeys(fields)))
  {
  }

  /** When both keys are present, the current key wins over the legacy one if its value is truthy. */
  lemma CurrentKeyWins(fields: map<string, Json>)
    requires "source" in fields && Truthy(Some(fields["source"]))
    ensures Resolve(JObj(fields)).source == Some(fields["source"])
  {
  }

  /** The outcome of `transformQuestion`/`regenerateQuestion` once the model has replied:
      the raw text is parsed without trimming or fence stripping, and the resolved pair is
      returned without the completeness filter. */
  function SingleOutcome(reply: Reply, parse: Parser, parseError: string, noResponse: string)
    : (outcome: Result<Resolved, Failure>)
    ensures reply.Err? ==> outcome == Err(reply.error)
    ensures reply.Ok? && !Present(reply.value) ==> outcome == Err(Failure(Some(noResponse)))
    ensures reply.Ok? && Present(reply.value) && parse(reply.value.value).Some? && parse(reply.value.value).value != JNull
            ==> outcome == Ok(Resolve(parse(reply.value.value).value))
    ensures reply.Ok? && Present(reply.value) && (parse(reply.value.value).None? || parse(reply.value.value).value == JNull)
            ==> outcome == Err(Failure(Some(parseError)))
  {
    match reply
    case Err(e) => Err(e)
    case Ok(text) =>
      if !Present(text) then Err(Failure(Some(noResponse)))
      else
        match parse(text.value)
        case None => Err(Failure(Some(parseError)))
        case Some(item) => if item == JNull then Err(Failure(Some(parseError))) else Ok(Resolve(item))
  }

  /** `transformQuestion` once the model has replied, with its own two error messages. */
  function TransformOutcome(reply: Reply, parse: Parser): (outcome: Result<Resolved, Failure>)
    ensures reply.Err? ==> outcome == Err(reply.error)
    ensures reply.Ok? && !Present(reply.value) ==> outcome == Err(Failure(Some(TransformNoResponseError)))
    ensures reply.Ok? && Present(reply.value) && (parse(reply.value.value).None? || parse(reply.value.value).value == JNull)
            ==> outcome == Err(Failure(Some(TransformParseError)))
    ensures reply.Ok? && Present(reply.value) && parse(reply.value.value).Some? && parse(reply.value.value).value != JNull
            ==> outcome == Ok(Resolve(parse(reply.value.value).value))
  {
    SingleOutcome(reply, parse, TransformParseError, TransformNoResponseError)
  }

  /** `regenerateQuestion` once the model has replied, with its own two error messages. */
  function RegenerateOutcome(reply: Reply, parse: Parser): (outcome: Result<Resolved, Failure>)
    ensures reply.Err? ==> outcome == Err(reply.error)
    ensures reply.Ok? && !Present(reply.value) ==> outcome == Err(Failure(Some(RegenerateNoResponseError)))
    ensures reply.Ok? && Present(reply.value) && (parse(reply.value.value).None? || parse(reply.value.value).value == JNull)
            ==> outcome == Err(Failure(Some(RegenerateParseError)))
    ensures reply.Ok? && Present(reply.value) && parse(reply.value.value).Some? && parse(reply.value.value).value != JNull
            ==> outcome == Ok(Resolve(parse(reply.value.value).value))
  {
    SingleOutcome(reply, parse, RegenerateParseError, RegenerateNoResponseError)
  }

  /** A transformed or regenerated reply need not be complete: an empty object comes back
      as a pair of absent parts rather than as an error. */
  lemma SingleOutcomeIsUnfiltered(text: string, parse: Parser)
    requires text != "" && parse(text) == Some(JObj(map[]))
    ensures TransformOutcome(Ok(Some(text)), parse) == Ok(Resolved(None, None))
    ensures RegenerateOutcome(Ok(Some(text)), parse) == Ok(Resolved(None, None))
  {
  }

  /** Only generation strips a fence: the same fenced reply whose body parses is accepted by
      generate and rejected by transform when the parser refuses the fenced text. */
  lemma FenceStrippedOnlyForGenerate(w1: string, w2: string, body: string, w3: string, w4: string, parse: Parser)
    requires AllWhitespace(w1) && AllWhitespace(w2) && AllWhitespace(w3) && AllWhitespace(w4)
    requires body != [] && !IsWhitespace(body[0]) && !IsWhitespace(body[|body| - 1])
    requires parse(w1 + "```json" + w2 + body + w3 + "```" + w4).None?
    requires parse(body) == Some(JArr([]))
    ensures GenerateOutcome(Ok(Some(w1 + "```json" + w2 + body + w3 + "```" + w4)), parse) == Ok([])
    ensures TransformOutcome(Ok(Some(w1 + "```json" + w2 + body + w3 + "```" + w4)), parse)
            == Err(Failure(Some(TransformParseError)))
  {
    var fenced := w1 + "```json" + w2 + body + w3 + "```" + w4;
    JsonFenceCleans(w1, w2, body, w3, w4);
    assert parse(CleanText(fenced)) == Some(JArr([]));
    assert Batch(JArr([])) == [];
    assert KeepComplete([]) == [];
    assert Present(Some(fenced)) by {
      assert |fenced| >= 10;
    }
  }

  /** `evaluateCritique`: the reply text, or a fixed fallback when the text is missing or
      empty; a thrown error propagates. A successful critique reply is never empty. */
  function CritiqueOutcome(reply: Reply): (outcome: Result<string, Failure>)
    ensures reply.Err? ==> outcome == Err(reply.error)
    ensures reply.Ok? && Present(reply.value) ==> outcome == Ok(reply.value.value)
    ensures reply.Ok? && !Present(reply.value) ==> outcome == Ok(CritiqueFallback)
    ensures outcome.Ok? ==> outcome.value != ""
  {
    match reply
    case Err(e) => Err(e)
    case Ok(text) => if Present(text) then Ok(text.value) else Ok(CritiqueFallback)
  }
}
