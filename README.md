# ChemGen core, modelled in Dafny

ChemGen is a web application for chemistry teachers. A teacher types, pastes or uploads an
exam question. The application asks the hosted Gemini model for a pedagogical analysis of
that question and a new, similar question in one of three formats: multiple choice,
true/false statements, or short answer. The teacher can then transform a generated question
into another format, regenerate it, object to its analysis in a critique dialogue, and export
it as a Word question sheet with an answer key.

This project models the deterministic logic around the model calls:

- `Types` holds the records of `types.ts`. An options record is an ordered list of entries,
  in `Object.entries` order, whose values may be JSON `null`.
- `Text` holds the JavaScript string operations the code relies on: `trim`, `startsWith`,
  `endsWith`, `includes`, `split`, `join`, `toLowerCase` and `toUpperCase`.
- `GeminiService` covers `services/geminiService.ts`. It assembles the four kinds of request
  and normalises the model's replies. Each model call is a parameter: either a thrown failure
  or the optional reply text. `JSON.parse` is also a parameter, a function that may fail.
- `QuestionCard` covers `components/QuestionCard.tsx`. It splits text into LaTeX segments,
  computes what each question format shows, looks up per-statement analysis, and holds the
  transform toolbar's in-flight state as a class.
- `WordExport` covers `services/wordExportService.ts`. The document is a sequence of
  abstract blocks: the student part, one page break, then the teacher's answer key. The
  imperative builder methods are proved equal to the specification functions.
- `Critique` covers `components/CritiqueSection.tsx`. It is a class holding the critique
  text, the in-flight flag and the exchange history.
- `App` covers `App.tsx`. It is a class holding the page state. Each event handler is one
  method, and the outcome of each model call is a parameter.

## Model

| member | source | states |
|---|---|---|
| Types.PresentOptions | components/QuestionCard.tsx:143 | the listed options are exactly the entries whose value is a non-empty string, in entry order; none is invented |
| Types.PresentOptionsAppend | services/wordExportService.ts:46 | filtering the options distributes over concatenation, so the listed options keep their record order |
| Text.Trim | services/geminiService.ts:190 | the trimmed text neither starts nor ends with whitespace |
| Text.TrimPadded | components/CritiqueSection.tsx:17 | trimming removes exactly the surrounding whitespace from text that has no whitespace at its ends |
| Text.TrimEmptyIffBlank | components/CritiqueSection.tsx:101 | trimming leaves nothing exactly when the text is all whitespace |
| Text.Split | services/geminiService.ts:16 | `split` gives at least one piece, and no piece contains the separator |
| Text.SplitCount | components/QuestionCard.tsx:39 | there is one more piece than there are separators |
| Text.JoinSplit | components/QuestionCard.tsx:39 | joining the pieces with the separator gives back the text |
| Text.SplitJoin | components/QuestionCard.tsx:39 | splitting joined separator-free pieces gives back the pieces |
| Text.MissingCharNotContained | App.tsx:118 | `includes` fails when the text lacks one of the needle's characters |
| GeminiService.DataUrlPayload | services/geminiService.ts:16 | the base64 payload is absent exactly when the data URL has no comma, and it never contains a comma |
| GeminiService.DataUrlPayloadAfterHeader | services/geminiService.ts:14-17 | for a data URL `header,payload`, the payload is exactly what follows the header's comma |
| GeminiService.GenerateParts | services/geminiService.ts:118-164 | the prompt part comes first, then the image's inline data, then the document's inline data, each only when attached |
| GeminiService.GenerateRequest | services/geminiService.ts:118-186 | the fixed model gets the prompt first, one part per attachment, under the batch schema |
| GeminiService.AnchorText | services/geminiService.ts:271 | a transformation is anchored on the original question text when it is a non-empty string, and on the generated stem otherwise |
| GeminiService.AnchorSurvivesNewQuestion | services/geminiService.ts:328 | once the original text is captured, replacing the generated question keeps the same anchor |
| GeminiService.TransformRequest | services/geminiService.ts:273-301 | the fixed model gets one prompt part, with the current result, the anchor and the target format, under the single-result schema |
| GeminiService.RegenerateRequest | services/geminiService.ts:325-358 | the fixed model gets one prompt part, asking for the format the question already has, under the single-result schema |
| GeminiService.CritiqueRequest | services/geminiService.ts:230-258 | a critique asks the fixed model for prose: no response schema and one text part whose prompt carries the critique and the generated question's stem, format, level and competency code |
| GeminiService.CritiqueIgnoresSourceAnalysis | services/geminiService.ts:230-258 | the critique request does not depend on the analysis of the source question |
| GeminiService.Or | services/geminiService.ts:210-211 | JavaScript `a \|\| b` is truthy exactly when either operand is |
| GeminiService.KeepComplete | services/geminiService.ts:209-212 | the map-then-filter keeps no more entries than it is given, and every kept entry has a truthy source and generated part |
| GeminiService.KeepCompleteAppend | services/geminiService.ts:209-212 | filtering distributes over concatenation, so kept entries keep their reply order |
| GeminiService.KeepCompleteSingle | services/geminiService.ts:212 | one entry is kept, resolved, exactly when both of its parts resolve to truthy values |
| GeminiService.KeepCompleteAllOrNone | services/geminiService.ts:209-212 | when every entry is complete, each is kept, resolved and in order; when none is, nothing is kept |
| GeminiService.Resolve | services/geminiService.ts:209-211 | each part is the value under the current key or the legacy key, truthy exactly when one of them is; LegacyKeysResolveAlike and CurrentKeyWins fix the priority |
| GeminiService.StripFence | services/geminiService.ts:192-196 | text without an opening fence is left alone, and stripping never lengthens the text; the fence lemmas fix each fenced shape |
| GeminiService.DropClosingFence | services/geminiService.ts:193-195 | text without a closing fence is left alone; otherwise a prefix shorter by the fence at least remains |
| GeminiService.CleanText | services/geminiService.ts:190-196 | a trimmed reply without an opening fence is parsed as trimmed; cleaning never lengthens it |
| GeminiService.Batch | services/geminiService.ts:200-205 | a bare array is the batch; an object's `analysisResults` array is the batch; without one the batch is empty |
| GeminiService.GenerateOutcome | services/geminiService.ts:188-221 | a thrown call error is passed on; a reply without text fails with the no-response message; a reply fails with the processing-error message exactly when its cleaned text does not parse, parses to null or its batch holds a null; otherwise the outcome is the batch's complete entries |
| GeminiService.GenerateSimilarQuestion | services/geminiService.ts:109-222 | the request sent and the outcome returned are those of the request and reply specifications |
| GeminiService.BuildGenerateRequest | services/geminiService.ts:118-186 | building the parts step by step yields the specified request |
| GeminiService.NormalizeGenerateReply | services/geminiService.ts:188-221 | the step-by-step reply normalisation yields the specified outcome |
| GeminiService.CleanBody | services/geminiService.ts:190-196 | a reply that is already bare JSON passes through the cleaning unchanged |
| GeminiService.FenceInterior | services/geminiService.ts:193 | stripping the closing fence and its surrounding whitespace leaves the fenced body |
| GeminiService.JsonFenceCleans | services/geminiService.ts:192-193 | a body fenced as ```` ```json ```` and padded with whitespace anywhere cleans to the body |
| GeminiService.NoJsonTag | services/geminiService.ts:192-194 | a bare fence whose body does not begin with `json` is not taken for a JSON-tagged fence |
| GeminiService.BareFenceCleans | services/geminiService.ts:194-195 | a body in a bare ```` ``` ```` fence cleans to the body |
| GeminiService.PaddedFence | services/geminiService.ts:190 | trimming a fenced reply removes only the padding outside the fences |
| GeminiService.BareOpening | services/geminiService.ts:194-195 | after a bare opening fence, the whitespace and the closing fence are what get stripped |
| GeminiService.JsonFenceIsTransparent | services/geminiService.ts:188-212 | wrapping a reply in a ```` ```json ```` fence does not change the generate outcome |
| GeminiService.BareFenceIsTransparent | services/geminiService.ts:188-212 | wrapping a reply in a bare fence does not change the generate outcome |
| GeminiService.BareArrayIsTheBatch | services/geminiService.ts:200-205 | a bare array and the same array wrapped in `analysisResults` give the same batch |
| GeminiService.NoArrayIsEmptySuccess | services/geminiService.ts:200-212 | a parsed reply that is not an array and whose `analysisResults` is absent or not an array is an empty success, not an error |
| GeminiService.NullEntryFailsBatch | services/geminiService.ts:209-217 | a null entry anywhere in the batch fails the whole reply with the processing-error message |
| GeminiService.LegacyKeysResolveAlike | services/geminiService.ts:208-211 | an entry written with the legacy keys is kept exactly when, and resolved exactly as, the same entry written with the current keys |
| GeminiService.CurrentKeyWins | services/geminiService.ts:210 | a truthy current `source` wins over a legacy `sourceAnalysis` |
| GeminiService.SingleOutcome | services/geminiService.ts:303-317 | for transform and regenerate, the call error is passed on; a reply without text gives the call's no-response message; an unparsable or null reply gives the call's parse-error message; otherwise the resolved pair is returned |
| GeminiService.TransformOutcome | services/geminiService.ts:303-317 | the passed-on error, the transform no-response message, the transform parse-error message, or the resolved pair |
| GeminiService.RegenerateOutcome | services/geminiService.ts:360-373 | the passed-on error, the regenerate no-response message, the regenerate parse-error message, or the resolved pair |
| GeminiService.SingleOutcomeIsUnfiltered | services/geminiService.ts:360-366 | transform and regenerate return a pair even when both parts are missing, because no completeness filter is applied |
| GeminiService.FenceStrippedOnlyForGenerate | services/geminiService.ts:303-313 | a fenced reply succeeds for generation but fails to parse for transformation |
| GeminiService.CritiqueOutcome | services/geminiService.ts:260 | the reply text is the answer, the fallback sentence is used when there is no text, the call error is passed on, and an answer is never empty |
| QuestionCard.Alternate | components/QuestionCard.tsx:42-53 | there is one segment per piece |
| QuestionCard.AlternateTags | components/QuestionCard.tsx:43-44 | each segment keeps its piece's text, and segments alternate between plain text and formula |
| QuestionCard.LatexSegments | components/QuestionCard.tsx:37-57 | empty text renders nothing; otherwise there is one segment more than there are `$` signs, no segment contains `$`, and exactly the odd-indexed segments are formulas |
| QuestionCard.AlternateTwo | components/QuestionCard.tsx:44-50 | a plain piece followed by a formula renders as the piece, then the formula between `$` signs, then the rest |
| QuestionCard.RenderedAlternate | components/QuestionCard.tsx:42-53 | rendering the alternating segments gives the pieces joined by `$`, with one extra `$` when the last piece is a formula |
| QuestionCard.RenderingRoundTrip | components/QuestionCard.tsx:37-57 | the rendered text equals the source text when it has an even number of `$` signs, and gains one trailing `$` when the number is odd |
| QuestionCard.SubAnalysisFor | components/QuestionCard.tsx:84 | a statement's analysis is the one under its key; failing that, under its lower-case key; failing both, under its upper-case key; it is found exactly when one of the three is present |
| QuestionCard.LookupToleratesCase | components/QuestionCard.tsx:84 | with a single stored analysis, under any key, the analysis for a statement key is found exactly when the stored key is the statement key, its lower-case or its upper-case form |
| QuestionCard.LetterCaseExamples | components/QuestionCard.tsx:84 | statement `A` finds analysis stored under `a` and the reverse, but never under another letter |
| QuestionCard.DetailsOf | components/QuestionCard.tsx:99-127 | the correctness badge is shown exactly when `isCorrect` is set and reads ĐÚNG or SAI accordingly; the rationale is shown exactly when it is non-empty |
| QuestionCard.QuestionContent | components/QuestionCard.tsx:59-172 | short answer shows the answer-sheet note; the statement table is shown exactly for true/false with options, each row carrying the listed statement's lower-case marker and text, with details exactly when its analysis is found, and then those details; otherwise the listed options are shown with their texts, the one whose key equals the answer highlighted; without options nothing is shown |
| QuestionCard.PresentOptionsDistinct | components/QuestionCard.tsx:143-146 | distinct option keys stay distinct after the empty options are dropped |
| QuestionCard.HighlightIsUnique | components/QuestionCard.tsx:150 | with distinct keys, at most one choice is highlighted, and it is the one whose key equals the recorded answer |
| QuestionCard.HighlightIsCaseSensitive | components/QuestionCard.tsx:150 | an answer recorded as `a` highlights none of the choices `A` and `B` |
| QuestionCard.RationalePanels | components/QuestionCard.tsx:264-290 | the level and competency rationale panels are shown exactly when the question is not true/false |
| QuestionCard.TransformToolbar.constructor | components/QuestionCard.tsx:13 | no transformation is in flight at first |
| QuestionCard.TransformToolbar.ButtonDisabled | components/QuestionCard.tsx:187 | a format button is disabled for the current format and while a transform is in flight; BeginTransform and FinishTransform state its value after each step |
| QuestionCard.TransformToolbar.BeginTransform | components/QuestionCard.tsx:26-30 | a click invokes the transformation exactly when the target format differs from the current one and a handler is present; it then disables every button |
| QuestionCard.TransformToolbar.FinishTransform | components/QuestionCard.tsx:31-33 | once the call settles, only the button of the current format stays disabled |
| WordExport.ChoiceLines | services/wordExportService.ts:46-58 | one line per listed option, in order |
| WordExport.StatementRows | services/wordExportService.ts:83-94 | one table row per listed statement, in order |
| WordExport.FormatPart | services/wordExportService.ts:44-118 | multiple choice lists one line per listed option; true/false gets the statement table over the listed statements and a blank line; short answer gets the answer line; a question without options gets nothing; the part holds no page break |
| WordExport.StudentPart | services/wordExportService.ts:12-118 | the student part is the sheet title, the format line, the stem paragraph and then the format part, with no page break |
| WordExport.KeySub | services/wordExportService.ts:157 | a statement's analysis is the one under its key, failing that the one under its upper-case key; it is found exactly when either is present |
| WordExport.VerdictWord | services/wordExportService.ts:159 | the quick key says Đúng exactly when the statement is correct, and Sai otherwise, including when it is unset |
| WordExport.CorrectnessText | services/wordExportService.ts:196-198 | the detail table says Đúng, Sai or — exactly for true, false and unset |
| WordExport.QuickEntries | services/wordExportService.ts:154-161 | the quick key has at most one entry per letter |
| WordExport.QuickKey | services/wordExportService.ts:154-167 | the entries joined by the `   ;   ` separator: empty with no entry, the entry itself with one, and with two or more the first entry, the separator and the join of the rest |
| WordExport.QuickEntriesCount | services/wordExportService.ts:154-161 | the two extremes: with every letter found there is one entry per letter; with none the quick key is empty |
| WordExport.FoundCount | services/wordExportService.ts:154-161 | counts the letters that have an analysis, at most one per letter |
| WordExport.QuickEntriesLength | services/wordExportService.ts:154-161 | the quick key has exactly one entry per letter with analysis |
| WordExport.QuickEntryOfFoundKey | services/wordExportService.ts:154-161 | a letter with analysis is listed, after the entries of the earlier found letters, as its lower-case letter with its verdict |
| WordExport.FoundKeyAt | services/wordExportService.ts:154-220 | every quick-key entry and every detail row position belongs to one letter with analysis |
| WordExport.QuickKeyUppercaseFallback | services/wordExportService.ts:157-159 | analysis stored under `A` is reported as `a) …` |
| WordExport.UppercaseEntry | services/wordExportService.ts:157-159 | the entry for letter `a` uses the analysis stored under `A` and prints the lower-case letter |
| WordExport.EntryValue | services/wordExportService.ts:193 | a value is found exactly when an entry carries the key, and it is that entry's value |
| WordExport.OptionText | services/wordExportService.ts:193 | the statement text is the truthy value under the key; failing that, the truthy value under the upper-case key; it is empty exactly when neither exists |
| WordExport.TruthyValue | services/wordExportService.ts:193 | a value is found exactly when the first entry with the key holds a non-empty string, and it is that string |
| WordExport.DetailRows | services/wordExportService.ts:191-220 | the detail table has at most one row per letter |
| WordExport.DetailRowsLength | services/wordExportService.ts:191-220 | the detail table has exactly one row per letter with analysis |
| WordExport.DetailRowOfFoundKey | services/wordExportService.ts:191-220 | a letter with analysis has its row after the rows of the earlier found letters: lower-case letter, statement text, verdict, level, competency code and rationale |
| WordExport.QuickKeyMatchesDetailRows | services/wordExportService.ts:154-220 | the quick key and the detail table cover the same letters |
| WordExport.FirstKeyMatch | services/wordExportService.ts:248 | the index found is the first entry whose key equals the sought key ignoring case; nothing is found exactly when no key matches |
| WordExport.McAnswerText | services/wordExportService.ts:244-251 | the answer line is either the raw answer or a matching option shown with its own key and text; McAnswerFindsKeyInAnyCase and McAnswerFallsBackToRawAnswer fix which |
| WordExport.McAnswerFindsKeyInAnyCase | services/wordExportService.ts:244-251 | the answer line shows the first option whose key matches the trimmed answer ignoring case, with that option's own key and text |
| WordExport.NullFirstMatchIsPrinted | services/wordExportService.ts:244-251 | with options `a` (null) and `A` ("x") and answer `A`, the answer line is `a. null` |
| WordExport.McAnswerFallsBackToRawAnswer | services/wordExportService.ts:244-251 | without options, or when no key matches, the raw untrimmed answer is shown |
| WordExport.FormatKey | services/wordExportService.ts:148-288 | after the opening line, multiple choice and short answer give the rationale blocks; true/false gives the detail title, table and blank line exactly when there is an analysis; no page break |
| WordExport.FormatKeyOpening | services/wordExportService.ts:148-288 | true/false opens with the quick key, multiple choice with the correct answer and its text, and short answer with the raw answer |
| WordExport.AnswerKey | services/wordExportService.ts:125-302 | the answer-key heading, the four metadata paragraphs and a blank line, then the answer by format, then the explanation title and text; no page break |
| WordExport.Document | services/wordExportService.ts:6-128 | exactly the student part, opening with the sheet title, then one page break, then exactly the answer key, opening with its heading |
| WordExport.OnePageBreak | services/wordExportService.ts:124-128 | the document has exactly one page break, right after the student part, and ends with the explanation |
| WordExport.NatToDecimal | services/wordExportService.ts:316 | the timestamp's decimal digits are non-empty and all digits |
| WordExport.FileName | services/wordExportService.ts:316 | `Phieu_cau_hoi_`, the competency code, `_`, the decimal digits of the timestamp and `.docx`, each at its fixed position |
| WordExport.DecimalRoundTrip | services/wordExportService.ts:316 | reading the digits back gives the timestamp |
| WordExport.FileNamesDiffer | services/wordExportService.ts:316 | exports at different instants get different file names |
| WordExport.BuildChoiceLines | services/wordExportService.ts:46-58 | the loop pushes exactly the specified choice lines |
| WordExport.BuildStatementTable | services/wordExportService.ts:61-94 | the loop builds the header row and then the specified statement rows |
| WordExport.BuildQuickKey | services/wordExportService.ts:154-161 | the loop collects exactly the specified quick-key entries |
| WordExport.BuildDetailRows | services/wordExportService.ts:177-220 | the loop builds the header row and then the specified detail rows |
| WordExport.BuildDetailRow | services/wordExportService.ts:192-218 | one letter's row is the specified row |
| WordExport.CorrectnessWord | services/wordExportService.ts:196-198 | the `let` and `if` chain computes the specified verdict |
| WordExport.BuildFullAnswerText | services/wordExportService.ts:244-252 | the search computes the specified answer line |
| WordExport.BuildStudentPart | services/wordExportService.ts:12-118 | the pushes build the specified student part |
| WordExport.BuildTrueFalseKey | services/wordExportService.ts:151-239 | the pushes build the specified true/false key |
| WordExport.BuildFormatKey | services/wordExportService.ts:148-288 | the branches build the specified format key |
| WordExport.BuildAnswerKey | services/wordExportService.ts:125-302 | the pushes build the specified answer key |
| WordExport.TrueFalseKey | services/wordExportService.ts:151-239 | the quick-key paragraph first, then the detail blocks exactly when there is an analysis; no page break |
| WordExport.AnswerBlocks | services/wordExportService.ts:254-287 | the captioned answer paragraph, then the grounds for the level and the competency; no page break |
| WordExport.BuildFormatPart | services/wordExportService.ts:45-118 | the branches build the specified options or answer line of part 1 |
| WordExport.PushDetailRow | services/wordExportService.ts:191-220 | a detail row is appended for a statement exactly as specified |
| GeminiService.CleanReplyText | services/geminiService.ts:190-196 | the trim and fence stripping compute the specified cleaned text |
| WordExport.ExportQuestionToWord | services/wordExportService.ts:5-316 | the blocks are the specified document, and the file name is built from the competency code and the timestamp |
| Critique.CritiqueSection.constructor | components/CritiqueSection.tsx:12-14 | the section starts with empty text, nothing in flight and no history |
| Critique.CritiqueSection.ShowIntro | components/CritiqueSection.tsx:48 | the introductory note shows while the history is empty; the constructor and FinishSubmit fix when that holds |
| Critique.CritiqueSection.SubmitDisabled | components/CritiqueSection.tsx:101 | the send button is disabled exactly when the text is empty or all whitespace |
| Critique.CritiqueSection.ChangeText | components/CritiqueSection.tsx:94 | typing replaces the text and nothing else |
| Critique.CritiqueSection.BeginSubmit | components/CritiqueSection.tsx:16-21 | blank text sends nothing and changes nothing; otherwise the flag is raised and the critique request for the text is due |
| Critique.CritiqueSection.FinishSubmit | components/CritiqueSection.tsx:21-36 | an answer appends exactly one exchange and clears the text; a failure keeps the history and the text; the flag drops either way |
| Critique.CritiqueSection.HandleSubmit | components/CritiqueSection.tsx:16-37 | the whole handler: blank text changes nothing; otherwise the history grows by exactly one exchange, holding the untrimmed text, on an answer and is unchanged on a failure |
| App.ErrorMessage | App.tsx:116-120 | the shown error is never empty; a message mentioning API_KEY becomes the API-key hint; any other message is shown verbatim; no message gives the default |
| App.PlainMessageShownVerbatim | App.tsx:117-118 | a non-empty message without an underscore is shown as thrown |
| App.AppendExtracted | App.tsx:76 | the extracted Word text is appended after the old text and one blank line, or replaces empty text |
| App.DropIndex | App.tsx:135 | filtering by index removes exactly the item at an in-range index and nothing otherwise |
| App.RemainingResults | App.tsx:132-141 | no results stay none, and a list that becomes empty becomes none |
| App.RemoveDeletesOneItem | App.tsx:132-141 | removing from a list of one clears the results; otherwise exactly that item is gone |
| App.RemoveOutOfRangeKeepsList | App.tsx:135-138 | an out-of-range index keeps the list |
| App.FirstImageFrom | App.tsx:43-44 | the found clipboard item is the first whose type includes `image` |
| App.Session.constructor | App.tsx:11-25 | the page starts empty, with multiple choice selected, nothing loading, no error and no results |
| App.Session.SelectFormat | App.tsx:248-262 | choosing a format changes only the format |
| App.Session.SetInputText | App.tsx:280 | typing changes only the text |
| App.Session.HandleImageChange | App.tsx:27-38 | a chosen file becomes the image and its preview; no file changes nothing |
| App.Session.HandlePaste | App.tsx:40-60 | the default paste is prevented exactly when the first image item yields a file, which becomes the image; later items are never looked at |
| App.Session.HandleDocumentChange | App.tsx:62-85 | a PDF becomes the document; a Word file has its text appended, or sets the read error when extraction fails; any other file changes nothing |
| App.Session.RemoveImage | App.tsx:87-91 | the image and its preview are cleared and nothing else changes |
| App.Session.RemoveDocument | App.tsx:93-96 | the document is cleared and nothing else changes |
| App.Session.BeginGenerate | App.tsx:98-104 | without text, image or document only the missing-input error is set; otherwise the state is reset to loading and the request for the inputs is due |
| App.Session.FinishGenerate | App.tsx:113-121 | success stores the results; a failure stores the shown error and no results; loading ends either way |
| App.Session.HandleGenerate | App.tsx:98-123 | the whole handler, composed of the two steps above |
| App.Session.HandleReset | App.tsx:125-130 | text, image, preview, document and state are cleared; the format is kept |
| App.Session.HandleRemoveResult | App.tsx:132-141 | only the result list changes, as the removal specifies |
| App.Session.HandleRegenerateItem | App.tsx:143-163 | nothing happens for a missing item; otherwise the regenerate request is due, success replaces exactly that item, a failure keeps the list, and loading ends |
| App.Session.HandleTransform | App.tsx:165-184 | nothing happens for a missing item; otherwise the transform request is due, success replaces exactly that item, and a failure changes nothing |

## Left out

- Rendering: JSX markup, styling, icons, animations, `Button.tsx` and `SourceAnalysisCard.tsx` are not modelled. The model computes what each view shows, not how it looks.
- The Gemini SDK calls are not modelled. Each call is a parameter: a thrown failure or the optional reply text. The wording of the prompts and of the system instruction, and the response schemas, appear only as tags.
- `JSON.parse` is a parameter `string -> Option<Json>`. JSON syntax is not modelled.
- `FileReader`, `mammoth` and the clipboard API are not modelled. The data URL is part of a file value. The text extracted from a Word file, or its failure, is a parameter of the handler.
- Building the docx `Document`, `Packer.toBlob` and the download link are not modelled. The export produces abstract blocks, and the fonts, colours and spacing are dropped.
- `Date.now()` is a parameter.
- `alert` and `console` output is not modelled.
- Asynchronous interleaving is not modelled. Each handler is an atomic step, or a begin step and a finish step around the call. Two requests in flight at once, and state updates arriving out of order, are not captured.
- The resets of the hidden file inputs (`imageInputRef`, `docInputRef`) are not modelled. They only clear DOM values.
- `toLowerCase` and `toUpperCase` map only the ASCII letters. Option keys are letters in practice.
- `isCorrect` set to JSON `null` is not told apart from an absent `isCorrect`. Both are `None`.
- Typed results: the `as AnalysisResult[]` casts are unchecked in the source. The service model returns resolved JSON pairs. The page state receives typed results as the outcome parameter.
- `metadata.format` is the three-valued enum of `types.ts`, so the export's "other format" branch is the short-answer branch.
- The constants module is not part of this model. Only the system instruction comes from it, and it is never inspected.
- App.PlainMessageShownVerbatim: the lemma covers any message without an underscore. It is not instantiated for the service's own error sentences, so it is not proved here that those literals lack `API_KEY`.
