/** App.tsx: the page's session. Each handler is one atomic step over the input fields and
    the `AnalysisState`; the service calls it makes are returned as requests and their
    settled outcomes are parameters. File reading (`FileReader`, `mammoth`) is folded into the
    step: a chosen file arrives with its data URL, and Word extraction arrives as its text or
    as a failure. */
module App {
  import opened Types
  import opened Text
  import opened GeminiService

  const MissingInputError: string := "Vui lòng cung cấp nội dung (văn bản, ảnh hoặc PDF)."
  const DefaultError: string := "Đã xảy ra lỗi khi giao tiếp với AI."
  const ApiKeyError: string := "Thiếu API Key. Vui lòng kiểm tra cấu hình môi trường."
  const WordReadError: string := "Không thể đọc file Word. Vui lòng thử lại hoặc copy nội dung."
  const PdfMime: string := "application/pdf"
  const DocxMime: string := "application/vnd.openxmlformats-officedocument.wordprocessingml.document"
  const PastedImageName: string := "pasted-image.png"

  // ---------------------------------------------------------------------------
  // Pure steps of the handlers

  /** The message shown for a failed generation: the thrown message when it has one, replaced
      by the configuration hint when it mentions the API key, else a generic message. */
  function ErrorMessage(failure: Failure): (message: string)
    ensures message != ""
    ensures failure.message.Some? && Contains(failure.message.value, "API_KEY") ==> message == ApiKeyError
    ensures Present(failure.message) && !Contains(failure.message.value, "API_KEY") ==> message == failure.message.value
    ensures !Present(failure.message) ==> message == DefaultError
  {
    var errorMessage := if Present(failure.message) then failure.message.value else DefaultError;
    if failure.message.Some? && Contains(failure.message.value, "API_KEY") then ApiKeyError else errorMessage
  }

  /** A thrown message without an underscore cannot mention the API key, so it reaches the
      user verbatim; the service's own messages are of this kind. */
  lemma {:induction false} PlainMessageShownVerbatim(message: string)
    requires message != "" && '_' !in message
    ensures ErrorMessage(Failure(Some(message))) == message
  {
    assert "API_KEY"[3] == '_';
    MissingCharNotContained(message, "API_KEY", '_');
  }

  /** Extracted Word text is appended to the input, after a blank line when the input is not
      empty: the old input stays in front and the extracted text ends the new one. */
  function AppendExtracted(prev: string, value: string): (text: string)
    ensures |text| == |prev| + |value| + (if prev == "" then 0 else 2)
    ensures StartsWith(text, prev) && EndsWith(text, value)
    ensures prev == "" ==> text == value
    ensures prev != "" ==> text[|prev|..|text| - |value|] == "\n\n"
  {
    prev + (if prev != "" then "\n\n" else "") + value
  }

  /** `items.filter((_, i) => i !== index)`. */
  function DropIndex<T>(items: seq<T>, index: int): (kept: seq<T>)
    ensures 0 <= index < |items| ==> kept == items[..index] + items[index + 1..]
    ensures !(0 <= index < |items|) ==> kept == items
    decreases |items|
  {
    if items == [] then []
    else
      var n := |items| - 1;
      var front := DropIndex(items[..n], index);
      assert items == items[..n] + [items[n]];
      if n != index then front + [items[n]] else front
  }

  /** The result list after removing position `index`: `null` stays `null`, and a list that
      empties becomes `null`. */
  function RemainingResults(result: Option<seq<AnalysisResult>>, index: int): (remaining: Option<seq<AnalysisResult>>)
    ensures result.None? ==> remaining.None?
    ensures remaining.Some? ==> |remaining.value| > 0
  {
    match result
    case None => None
    case Some(results) =>
      var updatedResults := DropIndex(results, index);
      if |updatedResults| > 0 then Some(updatedResults) else None
  }

  /** Removing an existing item deletes exactly that item and keeps the others in order. */
  lemma RemoveDeletesOneItem(results: seq<AnalysisResult>, index: int)
    requires 0 <= index < |results|
    ensures |results| == 1 ==> RemainingResults(Some(results), index) == None
    ensures |results| > 1 ==> RemainingResults(Some(results), index).Some?
    ensures |results| > 1 ==>
              var rest := RemainingResults(Some(results), index).value;
              |rest| == |results| - 1 &&
              (forall k :: 0 <= k < index ==> rest[k] == results[k]) &&
              (forall k :: index <= k < |rest| ==> rest[k] == results[k + 1])
  {
  }

  /** An index that names no item leaves a non-empty list as it is. */
  lemma RemoveOutOfRangeKeepsList(results: seq<AnalysisResult>, index: int)
    requires results != [] && !(0 <= index < |results|)
    ensures RemainingResults(Some(results), index) == Some(results)
  {
  }

  /** The clipboard's `DataTransferItem`: its MIME type and what `getAsFile` returns. */
  datatype ClipboardItem = ClipboardItem(kind: string, blob: Option<File>)

  /** The index of the first clipboard item at or after `from` whose type mentions "image". */
  function FirstImageFrom(items: seq<ClipboardItem>, from: nat): (found: Option<nat>)
    ensures found.Some? ==> from <= found.value < |items| && Contains(items[found.value].kind, "image")
    ensures found.Some? ==> forall j :: from <= j < found.value ==> !Contains(items[j].kind, "image")
    ensures found.None? ==> forall j :: from <= j < |items| ==> !Contains(items[j].kind, "image")
    decreases |items| - from
  {
    if from >= |items| then None
    else if Contains(items[from].kind, "image") then Some(from)
    else FirstImageFrom(items, from + 1)
  }

  /** The pasted blob, renamed as the source renames it. */
  function PastedFile(blob: File): File
  {
    File(PastedImageName, blob.mimeType, blob.dataUrl)
  }

  /** The preview that goes with an image: its data URL. */
  function PreviewOf(image: Option<File>): Option<string>
  {
    match image
    case Some(file) => Some(file.dataUrl)
    case None => None
  }

  // ---------------------------------------------------------------------------
  // The session

  class Session {
    var inputText: string
    var selectedImage: Option<File>
    var imagePreview: Option<string>
    var selectedDocument: Option<File>
    var selectedFormat: QuestionFormat
    var state: AnalysisState

    /** The preview always shows the selected image. */
    predicate Valid()
      reads this
    {
      imagePreview == PreviewOf(selectedImage)
    }

    constructor()
      ensures Valid()
      ensures inputText == "" && selectedImage == None && selectedDocument == None
      ensures selectedFormat == MultipleChoice
      ensures state == AnalysisState(false, None, None)
    {
      inputText := "";
      selectedImage := None;
      imagePreview := None;
      selectedDocument := None;
      selectedFormat := MultipleChoice;
      state := AnalysisState(false, None, None);
    }

    /** Whether there is anything to generate from. */
    predicate HasInput()
      reads this
    {
      inputText != "" || selectedImage.Some? || selectedDocument.Some?
    }

    /** The format buttons. */
    method SelectFormat(format: QuestionFormat)
      modifies this
      ensures selectedFormat == format
      ensures inputText == old(inputText) && selectedImage == old(selectedImage) && imagePreview == old(imagePreview)
      ensures selectedDocument == old(selectedDocument) && state == old(state)
    {
      selectedFormat := format;
    }

    /** The text area's `onChange` and its clear button. */
    method SetInputText(text: string)
      modifies this
      ensures inputText == text
      ensures selectedImage == old(selectedImage) && imagePreview == old(imagePreview)
      ensures selectedDocument == old(selectedDocument) && selectedFormat == old(selectedFormat) && state == old(state)
    {
      inputText := text;
    }

    /** `handleImageChange`: the first chosen file becomes the image and its preview. */
    method HandleImageChange(files: seq<File>)
      modifies this
      requires Valid()
      ensures Valid()
      ensures files != [] ==> selectedImage == Some(files[0])
      ensures files == [] ==> selectedImage == old(selectedImage)
      ensures inputText == old(inputText) && selectedDocument == old(selectedDocument)
      ensures selectedFormat == old(selectedFormat) && state == old(state)
    {
      if |files| > 0 {
        var file := files[0];
        selectedImage := Some(file);
        imagePreview := Some(file.dataUrl);
      }
    }

    /** `handlePaste`: the clipboard items are scanned for the first one whose type mentions
        "image"; the scan stops there, and if that item yields a file it becomes the image and
        the paste is prevented. */
    method HandlePaste(items: seq<ClipboardItem>) returns (prevented: bool)
      modifies this
      requires Valid()
      ensures Valid()
      ensures prevented <==> FirstImageFrom(items, 0).Some? && items[FirstImageFrom(items, 0).value].blob.Some?
      ensures prevented ==> selectedImage == Some(PastedFile(items[FirstImageFrom(items, 0).value].blob.value))
      ensures !prevented ==> selectedImage == old(selectedImage)
      ensures inputText == old(inputText) && selectedDocument == old(selectedDocument)
      ensures selectedFormat == old(selectedFormat) && state == old(state)
    {
      prevented := false;
      var i := 0;
      while i < |items|
        invariant 0 <= i <= |items|
        invariant FirstImageFrom(items, i) == FirstImageFrom(items, 0)
        invariant !prevented
        invariant selectedImage == old(selectedImage) && imagePreview == old(imagePreview)
        invariant inputText == old(inputText) && selectedDocument == old(selectedDocument)
        invariant selectedFormat == old(selectedFormat) && state == old(state)
        decreases |items| - i
      {
        if Contains(items[i].kind, "image") {
          var blob := items[i].blob;
          if blob.Some? {
            prevented := true;
            var file := PastedFile(blob.value);
            selectedImage := Some(file);
            imagePreview := Some(file.dataUrl);
          }
          break;
        }
        i := i + 1;
      }
    }

    /** `handleDocumentChange`: a PDF becomes the document; a Word file (by MIME type or by
        name) has its text appended to the input, or sets the read error when extraction fails;
        any other file is ignored. `extracted` is what extraction produced. */
    method HandleDocumentChange(files: seq<File>, extracted: Option<string>)
      modifies this
      requires Valid()
      ensures Valid()
      ensures files != [] && files[0].mimeType == PdfMime ==>
                selectedDocument == Some(files[0]) && inputText == old(inputText) && state == old(state)
      ensures files != [] && files[0].mimeType != PdfMime &&
              (files[0].mimeType == DocxMime || EndsWith(files[0].name, ".docx")) ==>
                selectedDocument == old(selectedDocument) &&
                (extracted.Some? ==> inputText == AppendExtracted(old(inputText), extracted.value) && state == old(state)) &&
                (extracted.None? ==> inputText == old(inputText) && state == old(state).(error := Some(WordReadError)))
      ensures files == [] || (files[0].mimeType != PdfMime && files[0].mimeType != DocxMime && !EndsWith(files[0].name, ".docx")) ==>
                selectedDocument == old(selectedDocument) && inputText == old(inputText) && state == old(state)
      ensures selectedImage == old(selectedImage) && selectedFormat == old(selectedFormat)
    {
      if |files| > 0 {
        var file := files[0];
        var fileType := file.mimeType;
        if fileType == PdfMime {
          selectedDocument := Some(file);
        } else if fileType == DocxMime || EndsWith(file.name, ".docx") {
          match extracted
          case Some(value) =>
            inputText := AppendExtracted(inputText, value);
          case None =>
            state := state.(error := Some(WordReadError));
        }
      }
    }

    /** The image is dropped together with its preview. */
    method RemoveImage()
      modifies this
      ensures Valid()
      ensures selectedImage == None
      ensures inputText == old(inputText) && selectedDocument == old(selectedDocument)
      ensures selectedFormat == old(selectedFormat) && state == old(state)
    {
      selectedImage := None;
      imagePreview := None;
    }

    method RemoveDocument()
      modifies this
      ensures selectedDocument == None
      ensures inputText == old(inputText) && selectedImage == old(selectedImage) && imagePreview == old(imagePreview)
      ensures selectedFormat == old(selectedFormat) && state == old(state)
    {
      selectedDocument := None;
    }

    /** The guard and first step of `handleGenerate`: without any input only the error is
        set; otherwise the state is reset to loading and the request for the inputs is due. */
    method BeginGenerate() returns (request: Option<Request>)
      modifies this
      ensures !old(HasInput()) ==> request == None && state == old(state).(error := Some(MissingInputError))
      ensures old(HasInput()) ==>
                request == Some(GenerateRequest(inputText, selectedFormat, selectedImage, selectedDocument)) &&
                state == AnalysisState(true, None, None)
      ensures inputText == old(inputText) && selectedImage == old(selectedImage) && imagePreview == old(imagePreview)
      ensures selectedDocument == old(selectedDocument) && selectedFormat == old(selectedFormat)
    {
      if !HasInput() {
        state := state.(error := Some(MissingInputError));
        return None;
      }
      state := AnalysisState(true, None, None);
      request := Some(GenerateRequest(inputText, selectedFormat, selectedImage, selectedDocument));
    }

    /** The settled call: the results on success, the mapped message and no results on failure;
        loading ends either way. */
    method FinishGenerate(outcome: Result<seq<AnalysisResult>, Failure>)
      modifies this
      ensures outcome.Ok? ==> state == AnalysisState(false, None, Some(outcome.value))
      ensures outcome.Err? ==> state == AnalysisState(false, Some(ErrorMessage(outcome.error)), None)
      ensures inputText == old(inputText) && selectedImage == old(selectedImage) && imagePreview == old(imagePreview)
      ensures selectedDocument == old(selectedDocument) && selectedFormat == old(selectedFormat)
    {
      match outcome
      case Ok(result) =>
        state := AnalysisState(false, None, Some(result));
      case Err(err) =>
        state := AnalysisState(false, Some(ErrorMessage(err)), None);
    }

    /** `handleGenerate` as one step. */
    method HandleGenerate(outcome: Result<seq<AnalysisResult>, Failure>) returns (request: Option<Request>)
      modifies this
      ensures !old(HasInput()) ==> request == None && state == old(state).(error := Some(MissingInputError))
      ensures old(HasInput()) ==>
                request == Some(GenerateRequest(inputText, selectedFormat, selectedImage, selectedDocument)) &&
                !state.isLoading &&
                (outcome.Ok? ==> state == AnalysisState(false, None, Some(outcome.value))) &&
                (outcome.Err? ==> state == AnalysisState(false, Some(ErrorMessage(outcome.error)), None))
      ensures inputText == old(inputText) && selectedImage == old(selectedImage) && imagePreview == old(imagePreview)
      ensures selectedDocument == old(selectedDocument) && selectedFormat == old(selectedFormat)
    {
      request := BeginGenerate();
      if request.Some? {
        FinishGenerate(outcome);
      }
    }

    /** `handleReset`: every input and the whole analysis state are cleared. */
    method HandleReset()
      modifies this
      ensures Valid()
      ensures inputText == "" && selectedImage == None && selectedDocument == None
      ensures state == AnalysisState(false, None, None)
      ensures selectedFormat == old(selectedFormat)
    {
      inputText := "";
      RemoveImage();
      RemoveDocument();
      state := AnalysisState(false, None, None);
    }

    /** `handleRemoveResult`: only the result list changes. */
    method HandleRemoveResult(indexToRemove: int)
      modifies this
      ensures state == old(state).(result := RemainingResults(old(state.result), indexToRemove))
      ensures inputText == old(inputText) && selectedImage == old(selectedImage) && imagePreview == old(imagePreview)
      ensures selectedDocument == old(selectedDocument) && selectedFormat == old(selectedFormat)
    {
      if state.result.None? {
        return;
      }
      var updatedResults := DropIndex(state.result.value, indexToRemove);
      state := state.(result := if |updatedResults| > 0 then Some(updatedResults) else None);
    }

    /** Whether `index` names an item of the result list. */
    predicate HasItem(index: int)
      reads this
    {
      state.result.Some? && 0 <= index < |state.result.value|
    }

    /** `handleRegenerateItem`: nothing without an item at `index`; otherwise the item's
        regenerate request is due, a new question replaces only that item, a failure keeps
        the list, and loading ends either way. */
    method HandleRegenerateItem(index: int, outcome: Result<AnalysisResult, Failure>) returns (request: Option<Request>)
      modifies this
      ensures !old(HasItem(index)) ==> request == None && state == old(state)
      ensures old(HasItem(index)) ==>
                request == Some(RegenerateRequest(old(state.result.value[index]))) &&
                !state.isLoading && state.error == old(state.error)
      ensures old(HasItem(index)) && outcome.Ok? ==>
                state.result == Some(old(state.result.value)[index := outcome.value])
      ensures old(HasItem(index)) && outcome.Err? ==> state.result == old(state.result)
      ensures inputText == old(inputText) && selectedImage == old(selectedImage) && imagePreview == old(imagePreview)
      ensures selectedDocument == old(selectedDocument) && selectedFormat == old(selectedFormat)
    {
      if !HasItem(index) {
        return None;
      }
      var currentItem := state.result.value[index];
      state := state.(isLoading := true);
      request := Some(RegenerateRequest(currentItem));
      match outcome
      case Ok(regeneratedResult) =>
        var newResults := state.result.value;
        newResults := newResults[index := regeneratedResult];
        state := state.(result := Some(newResults), isLoading := false);
      case Err(_) =>
        state := state.(isLoading := false);
    }

    /** `handleTransform`: like regeneration with a target format, but the loading flag and
        the error are never touched and a failure changes nothing. */
    method HandleTransform(index: int, newFormat: QuestionFormat, outcome: Result<AnalysisResult, Failure>)
      returns (request: Option<Request>)
      modifies this
      ensures !old(HasItem(index)) ==> request == None && state == old(state)
      ensures old(HasItem(index)) ==> request == Some(TransformRequest(old(state.result.value[index]), newFormat))
      ensures old(HasItem(index)) && outcome.Ok? ==>
                state == old(state).(result := Some(old(state.result.value)[index := outcome.value]))
      ensures outcome.Err? ==> state == old(state)
      ensures inputText == old(inputText) && selectedImage == old(selectedImage) && imagePreview == old(imagePreview)
      ensures selectedDocument == old(selectedDocument) && selectedFormat == old(selectedFormat)
    {
      if !HasItem(index) {
        return None;
      }
      var currentItem := state.result.value[index];
      request := Some(TransformRequest(currentItem, newFormat));
      if outcome.Ok? {
        var newResults := state.result.value;
        newResults := newResults[index := outcome.value];
        state := state.(result := Some(newResults));
      }
    }
  }
}
