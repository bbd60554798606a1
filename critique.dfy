/** components/CritiqueSection.tsx: the teacher's objections to a generated question and the
    model's answers, kept as a history under the question. The model call is the `reply`
    parameter (see `GeminiService.CritiqueOutcome`) and `Date.now()` is the `now` parameter. */
module Critique {
  import opened Types
  import opened Text
  import opened GeminiService

  /** The text typed in, the in-flight flag and the exchanges so far, for one question. */
  class CritiqueSection {
    const analysisResult: AnalysisResult
    var critiqueText: string
    var isSubmitting: bool
    var history: seq<CritiqueInteraction>

    constructor(analysisResult: AnalysisResult)
      ensures this.analysisResult == analysisResult
      ensures critiqueText == "" && !isSubmitting && history == []
    {
      this.analysisResult := analysisResult;
      critiqueText := "";
      isSubmitting := false;
      history := [];
    }

    /** The introductory note is shown only before the first exchange. */
    predicate ShowIntro()
      reads this
    {
      |history| == 0
    }

    /** The send button is disabled while the text is blank: empty or all whitespace. */
    predicate SubmitDisabled(): (disabled: bool)
      reads this
      ensures disabled <==> AllWhitespace(critiqueText)
    {
      TrimEmptyIffBlank(critiqueText);
      Trim(critiqueText) == ""
    }

    /** The text area's `onChange`: the text is replaced and nothing else changes. */
    method ChangeText(text: string)
      modifies this
      ensures critiqueText == text
      ensures isSubmitting == old(isSubmitting) && history == old(history)
    {
      critiqueText := text;
    }

    /** The guard and first step of `handleSubmit`: blank text changes nothing and sends
        nothing; otherwise the flag is raised and the request for the current text is due. */
    method BeginSubmit() returns (request: Option<Request>)
      modifies this
      ensures Trim(old(critiqueText)) == "" ==> request == None && isSubmitting == old(isSubmitting)
      ensures Trim(old(critiqueText)) != "" ==> request == Some(CritiqueRequest(analysisResult, critiqueText)) && isSubmitting
      ensures critiqueText == old(critiqueText) && history == old(history)
    {
      if Trim(critiqueText) == "" {
        return None;
      }
      isSubmitting := true;
      request := Some(CritiqueRequest(analysisResult, critiqueText));
    }

    /** The rest of `handleSubmit` once the call has settled. `query` is the text the call was
        made with: on an answer it is recorded untrimmed with the answer and the text area is
        cleared; on a failure the history and the text are kept. The flag drops either way. */
    method FinishSubmit(query: string, reply: Reply, now: nat)
      modifies this
      ensures !isSubmitting
      ensures CritiqueOutcome(reply).Ok? ==>
                history == old(history) + [CritiqueInteraction(query, CritiqueOutcome(reply).value, now)] &&
                critiqueText == ""
      ensures CritiqueOutcome(reply).Err? ==> history == old(history) && critiqueText == old(critiqueText)
    {
      var outcome := CritiqueOutcome(reply);
      if outcome.Ok? {
        var newInteraction := CritiqueInteraction(query, outcome.value, now);
        history := history + [newInteraction];
        critiqueText := "";
      }
      isSubmitting := false;
    }

    /** `handleSubmit` as one step: a blank text leaves everything as it was; otherwise the
        history grows by exactly one exchange on an answer and is unchanged on a failure. */
    method HandleSubmit(reply: Reply, now: nat) returns (request: Option<Request>)
      modifies this
      ensures Trim(old(critiqueText)) == "" ==>
                request == None && critiqueText == old(critiqueText) &&
                isSubmitting == old(isSubmitting) && history == old(history)
      ensures Trim(old(critiqueText)) != "" ==>
                request == Some(CritiqueRequest(analysisResult, old(critiqueText))) && !isSubmitting
      ensures Trim(old(critiqueText)) != "" && CritiqueOutcome(reply).Ok? ==>
                history == old(history) + [CritiqueInteraction(old(critiqueText), CritiqueOutcome(reply).value, now)] &&
                critiqueText == ""
      ensures Trim(old(critiqueText)) != "" && CritiqueOutcome(reply).Err? ==>
                history == old(history) && critiqueText == old(critiqueText)
    {
      var query := critiqueText;
      request := BeginSubmit();
      if request.Some? {
        FinishSubmit(query, reply, now);
      }
    }
  }
}
