/** The records of types.ts, as Dafny values.
    JavaScript's `undefined` (an optional field that is absent) is `None`. */
module Types {

  datatype Option<+T> = None | Some(value: T)

  datatype Result<+T, +E> = Ok(value: T) | Err(error: E)

  /** A thrown JavaScript `Error`; `message` is absent for errors that carry none. */
  datatype Failure = Failure(message: Option<string>)

  datatype CognitiveLevel = Biet | Hieu | VanDung

  /** The string value of each `CognitiveLevel` member, as shown to the user. */
  function LevelText(level: CognitiveLevel): string
  {
    match level
    case Biet => "Biết"
    case Hieu => "Hiểu"
    case VanDung => "Vận dụng"
  }

  datatype QuestionFormat = MultipleChoice | TrueFalse | ShortAnswer

  /** The string value of each `QuestionFormat` member. */
  function FormatText(format: QuestionFormat): string
  {
    match format
    case MultipleChoice => "Trắc nghiệm nhiều lựa chọn"
    case TrueFalse => "Trắc nghiệm đúng sai"
    case ShortAnswer => "Trắc nghiệm trả lời ngắn"
  }

  /** The analysis of one lettered sub-statement (a-d) of a true/false question. */
  datatype SubQuestionMetadata = SubQuestionMetadata(
    level: CognitiveLevel,
    competencyCode: string,
    rationale: string,
    isCorrect: Option<bool>)

  type SubAnalysis = map<string, SubQuestionMetadata>

  datatype SourceAnalysis = SourceAnalysis(
    originalTopic: string,
    originalQuestionText: Option<string>,
    competencyCode: string,
    level: CognitiveLevel,
    analysisReasoning: string,
    subQuestionAnalysis: Option<SubAnalysis>)

  /** The `options` record as `Object.entries` lists it: keys in insertion order,
      a JSON `null` value as `None`. */
  type OptionEntries = seq<(string, Option<string>)>

  datatype Metadata = Metadata(
    format: QuestionFormat,
    competencyCode: string,
    competencyDescription: string,
    level: CognitiveLevel,
    contextType: string,
    rationaleLevel: string,
    rationaleCompetency: string)

  datatype GeneratedQuestion = GeneratedQuestion(
    stem: string,
    options: Option<OptionEntries>,
    subQuestionAnalysis: Option<SubAnalysis>,
    correctAnswer: string,
    explanation: string,
    metadata: Metadata)

  datatype AnalysisResult = AnalysisResult(source: SourceAnalysis, generated: GeneratedQuestion)

  /** The session state of the page; `result` is `None` for the JavaScript `null`. */
  datatype AnalysisState = AnalysisState(
    isLoading: bool,
    error: Option<string>,
    result: Option<seq<AnalysisResult>>)

  datatype CritiqueInteraction = CritiqueInteraction(userQuery: string, aiResponse: string, timestamp: nat)

  /** A file chosen or pasted by the user, with the data URL a `FileReader` produces for it. */
  datatype File = File(name: string, mimeType: string, dataUrl: string)

  /** A JavaScript string is truthy exactly when it is not empty. */
  predicate Present(s: Option<string>)
  {
    s.Some? && s.value != ""
  }

  /** The option entries whose value is neither null nor empty, in order
      (`Object.entries(options).filter(...)`). */
  function PresentOptions(entries: OptionEntries): (listed: seq<(string, string)>)
    ensures |listed| <= |entries|
    ensures forall e :: e in listed <==> (e.0, Some(e.1)) in entries && e.1 != ""
    decreases |entries|
  {
    if entries == [] then []
    else
      var last := entries[|entries| - 1];
      var front := PresentOptions(entries[..|entries| - 1]);
      assert entries == entries[..|entries| - 1] + [last];
      if Present(last.1) then front + [(last.0, last.1.value)] else front
  }

  /** Filtering commutes with concatenation: the listed options keep their order. */
  lemma {:induction false} PresentOptionsAppend(a: OptionEntries, b: OptionEntries)
    ensures PresentOptions(a + b) == PresentOptions(a) + PresentOptions(b)
    decreases |b|
  {
    if b == [] {
      assert a + b == a;
    } else {
      var b' := b[..|b| - 1];
      assert (a + b)[..|a + b| - 1] == a + b';
      PresentOptionsAppend(a, b');
    }
  }
}
