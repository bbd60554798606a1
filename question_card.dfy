/** The display logic of components/QuestionCard.tsx: the LaTeX segments of a text,
    the option rows of each format, the case-tolerant sub-analysis lookup, the
    multiple-choice highlight, and the transform toolbar's in-flight flag. */
module QuestionCard {
  import opened Types
  import opened Text

  // ---------------------------------------------------------------------------
  // LaTeX segments

  /** A piece of `text.split('$')`: even positions are plain text, odd ones formulas. */
  datatype Segment = Plain(text: string) | Formula(text: string)

  /** Tags the pieces alternately, starting with a formula when `formula` holds. */
  function Alternate(parts: seq<string>, formula: bool): (segments: seq<Segment>)
    ensures |segments| == |parts|
    decreases |parts|
  {
    if parts == [] then []
    else [if formula then Formula(parts[0]) else Plain(parts[0])] + Alternate(parts[1..], !formula)
  }

  /** Each segment carries its piece, and the tags alternate from the first one. */
  lemma {:induction false} AlternateTags(parts: seq<string>, formula: bool)
    ensures forall i :: 0 <= i < |parts| ==> Alternate(parts, formula)[i].text == parts[i]
    ensures forall i :: 0 <= i < |parts| ==> (Alternate(parts, formula)[i].Formula? <==> (formula == (i % 2 == 0)))
    decreases |parts|
  {
    if parts != [] {
      AlternateTags(parts[1..], !formula);
      var segments := Alternate(parts, formula);
      forall i | 1 <= i < |parts|
        ensures segments[i] == Alternate(parts[1..], !formula)[i - 1]
      {
      }
    }
  }

  /** `renderContentWithLatex`: nothing for the empty text, else the tagged pieces. */
  function LatexSegments(text: string): (segments: Option<seq<Segment>>)
    ensures segments.None? <==> text == ""
    ensures segments.Some? ==> |segments.value| == multiset(text)['$'] + 1
    ensures segments.Some? ==> forall i :: 0 <= i < |segments.value| ==> '$' !in segments.value[i].text
    ensures segments.Some? ==> forall i :: 0 <= i < |segments.value| ==> (segments.value[i].Formula? <==> i % 2 == 1)
  {
    SplitCount(text, '$');
    AlternateTags(Split(text, '$'), false);
    if text == "" then None else Some(Alternate(Split(text, '$'), false))
  }

  /** The characters a segment shows: a formula keeps its dollar delimiters. */
  function Shown(segment: Segment): string
  {
    match segment
    case Plain(t) => t
    case Formula(t) => "$" + t + "$"
  }

  function Rendered(segments: seq<Segment>): string
    decreases |segments|
  {
    if segments == [] then "" else Shown(segments[0]) + Rendered(segments[1..])
  }

  /** Two pieces on, the tagging starts over with plain text. */
  lemma AlternateTwo(parts: seq<string>)
    requires |parts| >= 2
    ensures Rendered(Alternate(parts, false)) == parts[0] + ("$" + parts[1] + "$") + Rendered(Alternate(parts[2..], false))
  {
    var segments := Alternate(parts, false);
    assert parts[1..][1..] == parts[2..];
    assert segments[1..] == Alternate(parts[1..], true);
    assert segments[1..][1..] == Alternate(parts[2..], false);
  }

  /** Rendering the alternating pieces rejoins them with `$`, plus one closing `$`
      when the last piece is a formula. */
  lemma {:induction false} RenderedAlternate(parts: seq<string>)
    requires |parts| >= 1
    ensures Rendered(Alternate(parts, false)) == Join(parts, "$") + (if |parts| % 2 == 0 then "$" else "")
    decreases |parts|
  {
    if |parts| == 1 {
      RenderedOne(parts);
    } else if |parts| == 2 {
      RenderedTwo(parts);
    } else {
      var rest := parts[2..];
      var tail := if |rest| % 2 == 0 then "$" else "";
      assert |parts| % 2 == |rest| % 2;
      assert Rendered(Alternate(parts, false)) == parts[0] + ("$" + parts[1] + "$") + (Join(rest, "$") + tail) by {
        RenderedAlternate(rest);
        AlternateTwo(parts);
      }
      assert Join(parts, "$") == parts[0] + "$" + (parts[1] + "$" + Join(rest, "$")) by {
        assert parts[1..] == [parts[1]] + rest;
        JoinCons(parts[1], rest, "$");
        assert parts == [parts[0]] + parts[1..];
        JoinCons(parts[0], parts[1..], "$");
      }
      Regroup(parts[0], parts[1], Join(rest, "$"), tail);
    }
  }

  /** A single piece renders as itself. */
  lemma RenderedOne(parts: seq<string>)
    requires |parts| == 1
    ensures Rendered(Alternate(parts, false)) == Join(parts, "$")
  {
    assert Alternate(parts, false) == [Plain(parts[0])];
    assert Rendered([Plain(parts[0])]) == parts[0] + Rendered([]);
    assert parts[0] + "" == parts[0];
  }

  /** Two pieces render as text, then a closed formula. */
  lemma RenderedTwo(parts: seq<string>)
    requires |parts| == 2
    ensures Rendered(Alternate(parts, false)) == Join(parts, "$") + "$"
  {
    AlternateTwo(parts);
    assert Alternate(parts[2..], false) == [];
    assert Join(parts[1..], "$") == parts[1];
    assert parts[0] + ("$" + parts[1] + "$") + "" == parts[0] + "$" + parts[1] + "$";
  }

  /** The two ways of writing a formula followed by the rest group the same characters. */
  lemma Regroup(a: string, b: string, j: string, tail: string)
    ensures a + ("$" + b + "$") + (j + tail) == a + "$" + (b + "$" + j) + tail
  {
  }

  /** A text with an even number of `$` renders as itself; with an odd number, one `$`
      is appended, since the last formula is closed by the renderer. */
  lemma RenderingRoundTrip(text: string)
    requires text != ""
    ensures multiset(text)['$'] % 2 == 0 ==> Rendered(LatexSegments(text).value) == text
    ensures multiset(text)['$'] % 2 == 1 ==> Rendered(LatexSegments(text).value) == text + "$"
  {
    var parts := Split(text, '$');
    var count := multiset(text)['$'];
    SplitCount(text, '$');
    assert LatexSegments(text).value == Alternate(parts, false);
    var closing := if |parts| % 2 == 0 then "$" else "";
    assert Rendered(Alternate(parts, false)) == text + closing by {
      RenderedAlternate(parts);
      JoinSplit(text, '$');
    }
    if count % 2 == 0 {
      assert |parts| % 2 == 1;
      assert text + "" == text;
    } else {
      assert |parts| % 2 == 0;
    }
  }

  // ---------------------------------------------------------------------------
  // Option rows

  /** The sub-analysis of a statement: under its key, else its lowercase form, else its uppercase form. */
  function SubAnalysisFor(analysis: Option<SubAnalysis>, key: string): (found: Option<SubQuestionMetadata>)
    ensures found.Some? <==>
              analysis.Some? && (key in analysis.value || ToLower(key) in analysis.value || ToUpper(key) in analysis.value)
    ensures found.Some? ==> found.value in analysis.value.Values
    ensures analysis.Some? && key in analysis.value ==> found == Some(analysis.value[key])
    ensures analysis.Some? && key !in analysis.value && ToLower(key) in analysis.value
            ==> found == Some(analysis.value[ToLower(key)])
    ensures analysis.Some? && key !in analysis.value && ToLower(key) !in analysis.value && ToUpper(key) in analysis.value
            ==> found == Some(analysis.value[ToUpper(key)])
  {
    match analysis
    case None => None
    case Some(sqa) =>
      if key in sqa then Some(sqa[key])
      else if ToLower(key) in sqa then Some(sqa[ToLower(key)])
      else if ToUpper(key) in sqa then Some(sqa[ToUpper(key)])
      else None
  }

  /** With a single recorded analysis, a statement finds it exactly when it is stored under the
      statement's key, its lowercase form or its uppercase form, and under no other key. */
  lemma LookupToleratesCase(stored: string, m: SubQuestionMetadata, key: string)
    ensures SubAnalysisFor(Some(map[stored := m]), key)
            == if stored == key || stored == ToLower(key) || stored == ToUpper(key) then Some(m) else None
  {
  }

  /** Statement `A` finds the analysis stored under `a` and the reverse; `a` finds nothing under `b`. */
  lemma LetterCaseExamples(m: SubQuestionMetadata)
    ensures SubAnalysisFor(Some(map["a" := m]), "A") == Some(m)
    ensures SubAnalysisFor(Some(map["A" := m]), "a") == Some(m)
    ensures SubAnalysisFor(Some(map["b" := m]), "a") == None
  {
    assert ToLower("A") == "a";
    assert ToUpper("a") == "A";
    assert ToLower("a") == "a" && ToUpper("a") == "A";
    LookupToleratesCase("a", m, "A");
    LookupToleratesCase("A", m, "a");
    LookupToleratesCase("b", m, "a");
  }

  /** Under a sub-analysis: the true/false badge (shown only when `isCorrect` is defined),
      the level, the code, and the rationale when it is not empty. */
  datatype Details = Details(badge: Option<string>, level: CognitiveLevel, competencyCode: string, rationale: Option<string>)

  function DetailsOf(meta: SubQuestionMetadata): (details: Details)
    ensures details.badge.Some? <==> meta.isCorrect.Some?
    ensures details.badge == Some("ĐÚNG") <==> meta.isCorrect == Some(true)
    ensures details.badge == Some("SAI") <==> meta.isCorrect == Some(false)
    ensures details.rationale.Some? <==> meta.rationale != ""
  {
    Details(
      match meta.isCorrect
      case None => None
      case Some(b) => Some(if b then "ĐÚNG" else "SAI"),
      meta.level,
      meta.competencyCode,
      if meta.rationale != "" then Some(meta.rationale) else None)
  }

  /** A true/false statement row: the lowercased key, the statement, and the analysis or,
      when none is found, the placeholder (`None`). */
  datatype StatementRow = StatementRow(marker: string, statement: string, details: Option<Details>)

  /** A multiple-choice row: the key as written, the option text, and the highlight. */
  datatype ChoiceRow = ChoiceRow(key: string, text: string, highlighted: bool)

  datatype Content =
    | AnswerSheetNote
    | Statements(statements: seq<StatementRow>)
    | Choices(choices: seq<ChoiceRow>)
    | NoContent

  function StatementRowOf(data: GeneratedQuestion, entry: (string, string)): StatementRow
  {
    var found := SubAnalysisFor(data.subQuestionAnalysis, entry.0);
    StatementRow(ToLower(entry.0), entry.1, if found.Some? then Some(DetailsOf(found.value)) else None)
  }

  /** `renderQuestionContent`: a note for short answer, statements for true/false with
      options, choices for any other question with options, nothing otherwise. */
  function QuestionContent(data: GeneratedQuestion): (content: Content)
    ensures data.metadata.format == ShortAnswer <==> content.AnswerSheetNote?
    ensures content.NoContent? <==> data.metadata.format != ShortAnswer && data.options.None?
    ensures content.Statements? <==> data.metadata.format == TrueFalse && data.options.Some?
    ensures content.Statements? ==> |content.statements| == |PresentOptions(data.options.value)|
    ensures content.Choices? ==> |content.choices| == |PresentOptions(data.options.value)|
    ensures content.Choices? ==> forall i :: 0 <= i < |content.choices| ==>
              content.choices[i].key == PresentOptions(data.options.value)[i].0 &&
              content.choices[i].text == PresentOptions(data.options.value)[i].1 &&
              (content.choices[i].highlighted <==> content.choices[i].key == data.correctAnswer)
    ensures content.Statements? ==> forall i :: 0 <= i < |content.statements| ==>
              var entry := PresentOptions(data.options.value)[i];
              var found := SubAnalysisFor(data.subQuestionAnalysis, entry.0);
              content.statements[i].marker == ToLower(entry.0) &&
              content.statements[i].statement == entry.1 &&
              (content.statements[i].details.None? <==> found.None?) &&
              (found.Some? ==> content.statements[i].details == Some(DetailsOf(found.value)))
  {
    var format := data.metadata.format;
    if format == ShortAnswer then AnswerSheetNote
    else if format == TrueFalse && data.options.Some? then
      var listed := PresentOptions(data.options.value);
      Statements(seq(|listed|, i requires 0 <= i < |listed| => StatementRowOf(data, listed[i])))
    else if data.options.Some? then
      var listed := PresentOptions(data.options.value);
      Choices(seq(|listed|, i requires 0 <= i < |listed| =>
                  ChoiceRow(listed[i].0, listed[i].1, listed[i].0 == data.correctAnswer)))
    else NoContent
  }

  predicate DistinctKeys(entries: OptionEntries)
  {
    forall i, j :: 0 <= i < j < |entries| ==> entries[i].0 != entries[j].0
  }

  /** The listed options of an object (whose keys are distinct) have distinct keys. */
  lemma {:induction false} PresentOptionsDistinct(entries: OptionEntries)
    requires DistinctKeys(entries)
    ensures forall i, j :: 0 <= i < j < |PresentOptions(entries)| ==>
              PresentOptions(entries)[i].0 != PresentOptions(entries)[j].0
    decreases |entries|
  {
    if entries != [] {
      var front := entries[..|entries| - 1];
      var last := entries[|entries| - 1];
      PresentOptionsDistinct(front);
      assert entries == front + [last];
      forall e | e in PresentOptions(front)
        ensures e.0 != last.0
      {
        assert (e.0, Some(e.1)) in front;
      }
    }
  }

  /** At most one choice is highlighted, and exactly one when the answer is a listed key. */
  lemma HighlightIsUnique(data: GeneratedQuestion)
    requires data.metadata.format == MultipleChoice && data.options.Some?
    requires DistinctKeys(data.options.value)
    ensures var rows := QuestionContent(data).choices;
            forall i, j :: 0 <= i < j < |rows| ==> !(rows[i].highlighted && rows[j].highlighted)
    ensures var rows := QuestionContent(data).choices;
            (exists i :: 0 <= i < |rows| && rows[i].highlighted) <==>
              (exists e :: e in PresentOptions(data.options.value) && e.0 == data.correctAnswer)
  {
    PresentOptionsDistinct(data.options.value);
    var listed := PresentOptions(data.options.value);
    var rows := QuestionContent(data).choices;
    if exists e :: e in listed && e.0 == data.correctAnswer {
      var e :| e in listed && e.0 == data.correctAnswer;
      var i :| 0 <= i < |listed| && listed[i] == e;
      assert rows[i].highlighted;
    }
  }

  /** The highlight compares keys case-sensitively: an answer written in the other case
      highlights no option. */
  lemma HighlightIsCaseSensitive(data: GeneratedQuestion)
    requires data.metadata.format == MultipleChoice
    requires data.options == Some([("A", Some("x")), ("B", Some("y"))])
    requires data.correctAnswer == "a"
    ensures forall row :: row in QuestionContent(data).choices ==> !row.highlighted
  {
    assert PresentOptions([("A", Some("x"))]) == [("A", "x")] by {
      assert [("A", Some("x"))][..0] == [];
    }
    assert [("A", Some("x")), ("B", Some("y"))][..1] == [("A", Some("x"))];
    assert PresentOptions(data.options.value) == [("A", "x"), ("B", "y")];
  }

  /** The two rationale panels (level, competency) beside the content; hidden for true/false. */
  function RationalePanels(data: GeneratedQuestion): (panels: seq<string>)
    ensures panels == [] <==> data.metadata.format == TrueFalse
    ensures panels != [] ==> panels == [data.metadata.rationaleLevel, data.metadata.rationaleCompetency]
  {
    if data.metadata.format != TrueFalse
    then [data.metadata.rationaleLevel, data.metadata.rationaleCompetency]
    else []
  }

  // ---------------------------------------------------------------------------
  // Transform toolbar

  /** The card's transform toolbar: the question it shows, whether the page passed an
      `onTransform` callback, and the target format of the transform in flight. */
  class TransformToolbar {
    const data: GeneratedQuestion
    const hasCallback: bool
    var isTransforming: Option<QuestionFormat>

    constructor(data: GeneratedQuestion, hasCallback: bool)
      ensures this.data == data && this.hasCallback == hasCallback
      ensures isTransforming == None
    {
      this.data := data;
      this.hasCallback := hasCallback;
      isTransforming := None;
    }

    /** A button is disabled for the current format and while any transform is in flight. */
    predicate ButtonDisabled(format: QuestionFormat)
      reads this
    {
      format == data.metadata.format || isTransforming.Some?
    }

    /** The first half of `handleTransformClick`: nothing for the current format or
        without a callback; otherwise the target is recorded and the callback is due. */
    method BeginTransform(target: QuestionFormat) returns (invoke: bool)
      modifies this
      ensures invoke <==> target != data.metadata.format && hasCallback
      ensures invoke ==> isTransforming == Some(target)
      ensures !invoke ==> isTransforming == old(isTransforming)
      ensures invoke ==> forall f :: ButtonDisabled(f)
    {
      if target == data.metadata.format || !hasCallback {
        return false;
      }
      isTransforming := Some(target);
      return true;
    }

    /** The `finally` half: the flag is cleared whether the callback succeeded or threw. */
    method FinishTransform()
      modifies this
      ensures isTransforming == None
      ensures forall f :: ButtonDisabled(f) <==> f == data.metadata.format
    {
      isTransforming := None;
    }
  }
}
