/** services/wordExportService.ts: the blocks of the exported question sheet.
    The document is a sequence of abstract blocks; the student part comes first,
    then one page break, then the teacher's answer key. Fonts, colours, spacing,
    the docx library and the download are not modelled. */
module WordExport {
  import opened Types
  import opened Text

  /** A block of the document. A paragraph is the texts of its runs. */
  datatype Block =
    | Heading(level: nat, text: string)
    | Para(runs: seq<string>)
    | Table(rows: seq<seq<string>>)
    | PageBreak

  const SheetTitle: string := "PHIẾU CÂU HỎI KIỂM TRA ĐÁNH GIÁ - GDPT 2018"
  const AnswerLine: string := "Trả lời: ..........................................................................................................."
  const KeyTitle: string := "HƯỚNG DẪN CHẤM & PHÂN TÍCH CHI TIẾT"
  const FormatLabel: string := "Dạng câu hỏi: "
  const StemLabel: string := "Nội dung câu hỏi: "
  const CodeLabel: string := "Chỉ báo năng lực (Chung): "
  const LevelLabel: string := "Cấp độ tư duy (Chung): "
  const DescriptionLabel: string := "Mô tả năng lực: "
  const ContextLabel: string := "Bối cảnh thực tiễn: "
  const QuickKeyLabel: string := "ĐÁP ÁN NHANH: "
  const DetailTitle: string := "Bảng phân tích chi tiết từng lệnh hỏi:"
  const McAnswerLabel: string := "ĐÁP ÁN ĐÚNG: "
  const AnswerLabel: string := "ĐÁP ÁN: "
  const RationaleTitle: string := "Căn cứ đánh giá:"
  const RationaleLevelLabel: string := "- Cấp độ tư duy: "
  const RationaleCompetencyLabel: string := "- Chỉ báo năng lực: "
  const ExplanationTitle: string := "Hướng dẫn giải chi tiết:"
  const QuickKeySeparator: string := "   ;   "
  const StatementHeader: seq<string> := ["Ý hỏi", "Nội dung mệnh đề", "Đúng / Sai"]
  const DetailHeader: seq<string> := ["Ý", "Nội dung", "Kết luận", "Cấp độ", "Mã chỉ báo", "Giải thích chi tiết"]
  /** The statement letters the answer key visits, in order. */
  const Letters: seq<string> := ["a", "b", "c", "d"]
  const Blank: Block := Para([""])

  // ---------------------------------------------------------------------------
  // Student part

  function ChoiceLine(entry: (string, string)): Block
  {
    Para([entry.0 + ". ", entry.1])
  }

  /** One `key. value` paragraph per listed option, in order. */
  function ChoiceLines(listed: seq<(string, string)>): (lines: seq<Block>)
    ensures |lines| == |listed|
    ensures forall i :: 0 <= i < |listed| ==> lines[i] == ChoiceLine(listed[i])
    decreases |listed|
  {
    if listed == [] then []
    else ChoiceLines(listed[..|listed| - 1]) + [ChoiceLine(listed[|listed| - 1])]
  }

  function StatementRow(entry: (string, string)): seq<string>
  {
    [ToLower(entry.0) + ")", entry.1, ""]
  }

  /** One row per listed statement: its lowercased letter with `)`, the statement, and an
      empty cell for the student's answer. */
  function StatementRows(listed: seq<(string, string)>): (rows: seq<seq<string>>)
    ensures |rows| == |listed|
    ensures forall i :: 0 <= i < |listed| ==> rows[i] == StatementRow(listed[i])
    decreases |listed|
  {
    if listed == [] then []
    else StatementRows(listed[..|listed| - 1]) + [StatementRow(listed[|listed| - 1])]
  }

  /** What the student sees of the options: lines for multiple choice, a table for
      true/false, an answer line for short answer; nothing when options are missing. */
  function FormatPart(data: GeneratedQuestion): (part: seq<Block>)
    ensures PageBreak !in part
    ensures data.metadata.format == MultipleChoice && data.options.Some?
            ==> part == ChoiceLines(PresentOptions(data.options.value))
    ensures data.metadata.format == TrueFalse && data.options.Some?
            ==> part == [Table([StatementHeader] + StatementRows(PresentOptions(data.options.value))), Blank]
    ensures data.metadata.format == ShortAnswer ==> part == [Para([AnswerLine])]
    ensures data.metadata.format != ShortAnswer && data.options.None? ==> part == []
  {
    var format := data.metadata.format;
    if format == MultipleChoice && data.options.Some? then
      ChoiceLines(PresentOptions(data.options.value))
    else if format == TrueFalse && data.options.Some? then
      [Table([StatementHeader] + StatementRows(PresentOptions(data.options.value))), Blank]
    else if format == ShortAnswer then
      [Para([AnswerLine])]
    else []
  }

  function StudentPart(data: GeneratedQuestion): (part: seq<Block>)
    ensures PageBreak !in part
    ensures |part| >= 3 && part[0] == Heading(1, SheetTitle)
    ensures part[1] == Para([FormatLabel + FormatText(data.metadata.format)])
    ensures part[2] == Para([StemLabel, data.stem])
    ensures part[3..] == FormatPart(data)
  {
    var head := [Heading(1, SheetTitle),
                 Para([FormatLabel + FormatText(data.metadata.format)]),
                 Para([StemLabel, data.stem])];
    var body := FormatPart(data);
    assert PageBreak !in head;
    assert (head + body)[3..] == body;
    head + body
  }

  // ---------------------------------------------------------------------------
  // Answer key

  /** `sqa?.[key] || sqa?.[key.toUpperCase()]`: the key as written, then its uppercase form. */
  function KeySub(analysis: Option<SubAnalysis>, key: string): (found: Option<SubQuestionMetadata>)
    ensures found.Some? <==> analysis.Some? && (key in analysis.value || ToUpper(key) in analysis.value)
    ensures analysis.Some? && key in analysis.value ==> found == Some(analysis.value[key])
    ensures analysis.Some? && key !in analysis.value && ToUpper(key) in analysis.value
            ==> found == Some(analysis.value[ToUpper(key)])
  {
    match analysis
    case None => None
    case Some(sqa) =>
      if key in sqa then Some(sqa[key])
      else if ToUpper(key) in sqa then Some(sqa[ToUpper(key)])
      else None
  }

  /** The quick key's verdict: `isCorrect` is tested for truthiness, so a missing value reads "Sai". */
  function VerdictWord(isCorrect: Option<bool>): (word: string)
    ensures word == "Đúng" <==> isCorrect == Some(true)
    ensures word != "Đúng" ==> word == "Sai"
  {
    if isCorrect == Some(true) then "Đúng" else "Sai"
  }

  /** The detail table's verdict distinguishes all three cases. */
  function CorrectnessText(isCorrect: Option<bool>): (text: string)
    ensures text == "Đúng" <==> isCorrect == Some(true)
    ensures text == "Sai" <==> isCorrect == Some(false)
    ensures text == "—" <==> isCorrect.None?
  {
    match isCorrect
    case Some(true) => "Đúng"
    case Some(false) => "Sai"
    case None => "—"
  }

  function QuickEntry(analysis: Option<SubAnalysis>, key: string): seq<string>
  {
    match KeySub(analysis, key)
    case Some(sub) => [ToLower(key) + ") " + VerdictWord(sub.isCorrect)]
    case None => []
  }

  /** The quick-key entries of the found keys, in the order of `keys`. */
  function QuickEntries(analysis: Option<SubAnalysis>, keys: seq<string>): (entries: seq<string>)
    ensures |entries| <= |keys|
    decreases |keys|
  {
    if keys == [] then []
    else QuickEntries(analysis, keys[..|keys| - 1]) + QuickEntry(analysis, keys[|keys| - 1])
  }

  /** The two extremes: when every key is found there is one entry per key, and when none
      is the quick key is empty (the paragraph is still written). */
  lemma {:induction false} QuickEntriesCount(analysis: Option<SubAnalysis>, keys: seq<string>)
    ensures (forall i :: 0 <= i < |keys| ==> KeySub(analysis, keys[i]).Some?) ==> |QuickEntries(analysis, keys)| == |keys|
    ensures (forall i :: 0 <= i < |keys| ==> KeySub(analysis, keys[i]).None?) ==> QuickEntries(analysis, keys) == []
    decreases |keys|
  {
    if keys != [] {
      QuickEntriesCount(analysis, keys[..|keys| - 1]);
    }
  }

  /** How many of `keys` have an analysis, as `KeySub` finds it. */
  function FoundCount(analysis: Option<SubAnalysis>, keys: seq<string>): (n: nat)
    ensures n <= |keys|
    decreases |keys|
  {
    if keys == [] then 0
    else FoundCount(analysis, keys[..|keys| - 1]) + (if KeySub(analysis, keys[|keys| - 1]).Some? then 1 else 0)
  }

  /** The quick key has one entry per found key. */
  lemma {:induction false} QuickEntriesLength(analysis: Option<SubAnalysis>, keys: seq<string>)
    ensures |QuickEntries(analysis, keys)| == FoundCount(analysis, keys)
    decreases |keys|
  {
    if keys != [] {
      QuickEntriesLength(analysis, keys[..|keys| - 1]);
    }
  }

  /** A found key `keys[i]` is listed after the entries of the found keys before it, under its
      lowercase letter with its verdict. */
  lemma {:induction false} QuickEntryOfFoundKey(analysis: Option<SubAnalysis>, keys: seq<string>, i: nat)
    requires i < |keys| && KeySub(analysis, keys[i]).Some?
    ensures FoundCount(analysis, keys[..i]) < |QuickEntries(analysis, keys)|
    ensures QuickEntries(analysis, keys)[FoundCount(analysis, keys[..i])]
            == ToLower(keys[i]) + ") " + VerdictWord(KeySub(analysis, keys[i]).value.isCorrect)
    decreases |keys|
  {
    var front := keys[..|keys| - 1];
    QuickEntriesLength(analysis, front);
    if i < |keys| - 1 {
      assert front[i] == keys[i] && front[..i] == keys[..i];
      QuickEntryOfFoundKey(analysis, front, i);
    } else {
      assert keys[..i] == front;
    }
  }

  /** Every position below the found count belongs to one found key: no entry or row is
      listed for a key that was not found. */
  lemma {:induction false} FoundKeyAt(analysis: Option<SubAnalysis>, keys: seq<string>, k: nat)
    requires k < FoundCount(analysis, keys)
    ensures exists i :: 0 <= i < |keys| && KeySub(analysis, keys[i]).Some? && FoundCount(analysis, keys[..i]) == k
    decreases |keys|
  {
    var front := keys[..|keys| - 1];
    if k < FoundCount(analysis, front) {
      FoundKeyAt(analysis, front, k);
      var i :| 0 <= i < |front| && KeySub(analysis, front[i]).Some? && FoundCount(analysis, front[..i]) == k;
      assert keys[i] == front[i] && keys[..i] == front[..i];
    } else {
      var i := |keys| - 1;
      assert keys[..i] == front;
    }
  }

  /** A statement analysed only under its uppercase letter is still listed, under the lowercase letter. */
  lemma QuickKeyUppercaseFallback(m: SubQuestionMetadata)
    ensures QuickEntries(Some(map["A" := m]), Letters) == ["a) " + VerdictWord(m.isCorrect)]
  {
    var analysis := Some(map["A" := m]);
    var entry := "a) " + VerdictWord(m.isCorrect);
    UppercaseEntry(m);
    assert QuickEntry(analysis, "b") == [] && QuickEntry(analysis, "c") == [] && QuickEntry(analysis, "d") == [] by {
      assert ToUpper("b") == "B" && ToUpper("c") == "C" && ToUpper("d") == "D";
    }
    var one, two, three := ["a"], ["a", "b"], ["a", "b", "c"];
    assert QuickEntries(analysis, one) == [entry] by {
      assert one[..0] == [] && one[0] == "a";
    }
    assert QuickEntries(analysis, two) == [entry] by {
      assert two[..1] == one && two[1] == "b";
    }
    assert QuickEntries(analysis, three) == [entry] by {
      assert three[..2] == two && three[2] == "c";
    }
    assert Letters[..3] == three && Letters[3] == "d";
  }

  /** The entry of statement `a` when only `A` was analysed. */
  lemma UppercaseEntry(m: SubQuestionMetadata)
    ensures QuickEntry(Some(map["A" := m]), "a") == ["a) " + VerdictWord(m.isCorrect)]
  {
    assert ToUpper("a") == "A" && "a" != "A";
    assert ToLower("a") == [LowerChar('a')] + ToLower("");
    assert ToLower("a") == "a";
    assert "a" + ") " == "a) ";
  }

  /** The quick-key entries joined by the separator; no found letter gives an empty key. */
  function QuickKey(analysis: Option<SubAnalysis>): (key: string)
    ensures QuickEntries(analysis, Letters) == [] ==> key == ""
    ensures |QuickEntries(analysis, Letters)| == 1 ==> key == QuickEntries(analysis, Letters)[0]
    ensures |QuickEntries(analysis, Letters)| >= 2 ==>
              key == QuickEntries(analysis, Letters)[0] + QuickKeySeparator
                     + Join(QuickEntries(analysis, Letters)[1..], QuickKeySeparator)
  {
    Join(QuickEntries(analysis, Letters), QuickKeySeparator)
  }

  /** The first entry with `key`, as `Object` property access finds it. */
  function EntryValue(entries: OptionEntries, key: string): (value: Option<Option<string>>)
    ensures value.Some? <==> exists e :: e in entries && e.0 == key
    ensures value.Some? ==> (key, value.value) in entries
    decreases |entries|
  {
    if entries == [] then None
    else if entries[0].0 == key then Some(entries[0].1)
    else EntryValue(entries[1..], key)
  }

  /** The truthy value of `options?.[key]`. */
  function TruthyValue(options: Option<OptionEntries>, key: string): (value: Option<string>)
    ensures value.Some? <==>
              options.Some? && EntryValue(options.value, key).Some? && Present(EntryValue(options.value, key).value)
    ensures value.Some? ==> value == EntryValue(options.value, key).value
  {
    if options.None? then None
    else
      match EntryValue(options.value, key)
      case Some(Some(v)) => if v != "" then Some(v) else None
      case _ => None
  }

  /** `options?.[key] || options?.[key.toUpperCase()] || ""`. */
  function OptionText(options: Option<OptionEntries>, key: string): (text: string)
    ensures text != "" ==> options.Some? && ((key, Some(text)) in options.value || (ToUpper(key), Some(text)) in options.value)
    ensures TruthyValue(options, key).Some? ==> text == TruthyValue(options, key).value
    ensures TruthyValue(options, key).None? && TruthyValue(options, ToUpper(key)).Some?
            ==> text == TruthyValue(options, ToUpper(key)).value
    ensures text == "" <==> TruthyValue(options, key).None? && TruthyValue(options, ToUpper(key)).None?
  {
    match TruthyValue(options, key)
    case Some(v) => v
    case None =>
      match TruthyValue(options, ToUpper(key))
      case Some(v) => v
      case None => ""
  }

  function DetailRow(data: GeneratedQuestion, key: string): seq<seq<string>>
  {
    match KeySub(data.subQuestionAnalysis, key)
    case Some(sub) =>
      [[ToLower(key) + ")", OptionText(data.options, key), CorrectnessText(sub.isCorrect),
        LevelText(sub.level), sub.competencyCode, sub.rationale]]
    case None => []
  }

  /** One detail row per found key, in the order of `keys`. */
  function DetailRows(data: GeneratedQuestion, keys: seq<string>): (rows: seq<seq<string>>)
    ensures |rows| <= |keys|
    decreases |keys|
  {
    if keys == [] then []
    else DetailRows(data, keys[..|keys| - 1]) + DetailRow(data, keys[|keys| - 1])
  }

  /** The quick key and the detail table list the same letters: one entry each per found key. */
  lemma {:induction false} QuickKeyMatchesDetailRows(data: GeneratedQuestion, keys: seq<string>)
    ensures |QuickEntries(data.subQuestionAnalysis, keys)| == |DetailRows(data, keys)|
    decreases |keys|
  {
    if keys != [] {
      QuickKeyMatchesDetailRows(data, keys[..|keys| - 1]);
    }
  }

  /** The detail table has one row per found key. */
  lemma {:induction false} DetailRowsLength(data: GeneratedQuestion, keys: seq<string>)
    ensures |DetailRows(data, keys)| == FoundCount(data.subQuestionAnalysis, keys)
    decreases |keys|
  {
    if keys != [] {
      DetailRowsLength(data, keys[..|keys| - 1]);
    }
  }

  /** A found key `keys[i]` has its row after the rows of the found keys before it: letter,
      option text, verdict, level, competency code and rationale. */
  lemma {:induction false} DetailRowOfFoundKey(data: GeneratedQuestion, keys: seq<string>, i: nat)
    requires i < |keys| && KeySub(data.subQuestionAnalysis, keys[i]).Some?
    ensures FoundCount(data.subQuestionAnalysis, keys[..i]) < |DetailRows(data, keys)|
    ensures var sub := KeySub(data.subQuestionAnalysis, keys[i]).value;
            DetailRows(data, keys)[FoundCount(data.subQuestionAnalysis, keys[..i])]
            == [ToLower(keys[i]) + ")", OptionText(data.options, keys[i]), CorrectnessText(sub.isCorrect),
                LevelText(sub.level), sub.competencyCode, sub.rationale]
    decreases |keys|
  {
    var front := keys[..|keys| - 1];
    DetailRowsLength(data, front);
    if i < |keys| - 1 {
      assert front[i] == keys[i] && front[..i] == keys[..i];
      DetailRowOfFoundKey(data, front, i);
    } else {
      assert keys[..i] == front;
    }
  }

  /** `Object.entries(options).find(...)`: the index of the first entry from `from` on whose
      key matches `key` case-insensitively. */
  function FirstKeyMatch(entries: OptionEntries, key: string, from: nat): (found: Option<nat>)
    ensures found.Some? ==> from <= found.value < |entries| && ToLower(entries[found.value].0) == ToLower(key)
    ensures found.Some? ==> forall j :: from <= j < found.value ==> ToLower(entries[j].0) != ToLower(key)
    ensures found.None? ==> forall j :: from <= j < |entries| ==> ToLower(entries[j].0) != ToLower(key)
    decreases |entries| - from
  {
    if from >= |entries| then None
    else if ToLower(entries[from].0) == ToLower(key) then Some(from)
    else FirstKeyMatch(entries, key, from + 1)
  }

  /** A value in a template string; a JSON null prints as "null". */
  function ValueText(value: Option<string>): string
  {
    match value
    case Some(s) => s
    case None => "null"
  }

  /** The multiple-choice answer: the matching option as `key. value` with the option's own
      key, else the raw answer. */
  function McAnswerText(data: GeneratedQuestion): (text: string)
    ensures text == data.correctAnswer ||
            (data.options.Some? &&
             exists i :: 0 <= i < |data.options.value| &&
               ToLower(data.options.value[i].0) == ToLower(Trim(data.correctAnswer)) &&
               text == data.options.value[i].0 + ". " + ValueText(data.options.value[i].1))
  {
    if data.options.None? then data.correctAnswer
    else
      match FirstKeyMatch(data.options.value, Trim(data.correctAnswer), 0)
      case Some(i) => data.options.value[i].0 + ". " + ValueText(data.options.value[i].1)
      case None => data.correctAnswer
  }

  /** The answer line shows the first option whose key matches the trimmed answer in any
      letter case, with the option's own key; later matches are ignored. */
  lemma McAnswerFindsKeyInAnyCase(data: GeneratedQuestion, i: nat)
    requires data.options.Some? && i < |data.options.value|
    requires ToLower(data.options.value[i].0) == ToLower(Trim(data.correctAnswer))
    requires forall j :: 0 <= j < i ==> ToLower(data.options.value[j].0) != ToLower(Trim(data.correctAnswer))
    ensures McAnswerText(data) == data.options.value[i].0 + ". " + ValueText(data.options.value[i].1)
  {
    var found := FirstKeyMatch(data.options.value, Trim(data.correctAnswer), 0);
    assert found.Some? && found.value == i;
  }

  /** Options holding both `a` (null) and `A`: the answer `A` is shown with the first match,
      the null one, printed as "null". */
  lemma NullFirstMatchIsPrinted(data: GeneratedQuestion)
    requires data.metadata.format == MultipleChoice
    requires data.options == Some([("a", None), ("A", Some("x"))])
    requires data.correctAnswer == "A"
    ensures McAnswerText(data) == "a. null"
  {
    var options := data.options.value;
    LetterAFacts();
    assert ToLower(options[0].0) == ToLower(Trim(data.correctAnswer));
    assert FirstKeyMatch(options, Trim(data.correctAnswer), 0) == Some(0);
    assert McAnswerText(data) == options[0].0 + ". " + ValueText(options[0].1);
    assert options[0].0 + ". " + ValueText(options[0].1) == "a" + ". " + "null";
  }

  /** The answer `A` needs no trimming and matches the key `a` in lower case. */
  lemma LetterAFacts()
    ensures Trim("A") == "A"
    ensures ToLower("A") == "a" && ToLower("a") == "a"
  {
    assert !IsWhitespace('A');
    assert ToLower("A") == [LowerChar('A')] + ToLower("");
    assert ToLower("a") == [LowerChar('a')] + ToLower("");
  }

  /** Without options, or without a matching key, the raw answer is printed, untrimmed. */
  lemma McAnswerFallsBackToRawAnswer(data: GeneratedQuestion)
    requires data.options.Some? ==>
               forall e :: e in data.options.value ==> ToLower(e.0) != ToLower(Trim(data.correctAnswer))
    ensures McAnswerText(data) == data.correctAnswer
  {
  }

  function RationaleBlocks(data: GeneratedQuestion): seq<Block>
  {
    [Para([RationaleTitle]),
     Para([RationaleLevelLabel + data.metadata.rationaleLevel]),
     Para([RationaleCompetencyLabel + data.metadata.rationaleCompetency]),
     Blank]
  }

  /** The true/false answer: the quick key, then the detail table when there is an analysis. */
  function TrueFalseKey(data: GeneratedQuestion): (part: seq<Block>)
    ensures |part| >= 1 && part[0] == Para([QuickKeyLabel, QuickKey(data.subQuestionAnalysis)])
    ensures part[1..] == if data.subQuestionAnalysis.Some? then DetailBlocks(data) else []
    ensures PageBreak !in part
  {
    [Para([QuickKeyLabel, QuickKey(data.subQuestionAnalysis)])]
    + (if data.subQuestionAnalysis.Some? then DetailBlocks(data) else [])
  }

  function DetailBlocks(data: GeneratedQuestion): seq<Block>
  {
    [Para([DetailTitle]), Table([DetailHeader] + DetailRows(data, Letters)), Blank]
  }

  /** The answer under `caption`, then the grounds for the level and the competency. */
  function AnswerBlocks(caption: string, answer: string, data: GeneratedQuestion): (part: seq<Block>)
    ensures |part| >= 1 && part[0] == Para([caption, answer])
    ensures part[1..] == RationaleBlocks(data)
    ensures PageBreak !in part
  {
    [Para([caption, answer])] + RationaleBlocks(data)
  }

  /** The answer of each format: the quick key (and detail table) for true/false, the matched
      option for multiple choice, the raw answer otherwise. */
  function FormatKey(data: GeneratedQuestion): (part: seq<Block>)
    ensures PageBreak !in part
    ensures |part| >= 1
    ensures data.metadata.format != TrueFalse ==> part[1..] == RationaleBlocks(data)
    ensures data.metadata.format == TrueFalse ==>
              part[1..] == (if data.subQuestionAnalysis.Some? then DetailBlocks(data) else [])
  {
    match data.metadata.format
    case TrueFalse => TrueFalseKey(data)
    case MultipleChoice => AnswerBlocks(McAnswerLabel, McAnswerText(data), data)
    case ShortAnswer => AnswerBlocks(AnswerLabel, data.correctAnswer, data)
  }

  /** How each format's answer opens, and that the detail table appears exactly when there is
      an analysis. */
  lemma FormatKeyOpening(data: GeneratedQuestion)
    ensures |FormatKey(data)| >= 1
    ensures data.metadata.format == TrueFalse ==>
              FormatKey(data)[0] == Para([QuickKeyLabel, QuickKey(data.subQuestionAnalysis)]) &&
              (|FormatKey(data)| > 1 <==> data.subQuestionAnalysis.Some?)
    ensures data.metadata.format == MultipleChoice ==> FormatKey(data)[0] == Para([McAnswerLabel, McAnswerText(data)])
    ensures data.metadata.format == ShortAnswer ==> FormatKey(data)[0] == Para([AnswerLabel, data.correctAnswer])
  {
  }

  /** The competency code, the level, the description and the context, then a blank line. */
  function MetadataBlocks(data: GeneratedQuestion): seq<Block>
  {
    [Para([CodeLabel, data.metadata.competencyCode]),
     Para([LevelLabel, LevelText(data.metadata.level)]),
     Para([DescriptionLabel, data.metadata.competencyDescription]),
     Para([ContextLabel, data.metadata.contextType]),
     Blank]
  }

  function AnswerKey(data: GeneratedQuestion): (part: seq<Block>)
    ensures PageBreak !in part
    ensures |part| == 8 + |FormatKey(data)| && part[0] == Heading(2, KeyTitle)
    ensures part[1..6] == MetadataBlocks(data)
    ensures part[6..|part| - 2] == FormatKey(data)
    ensures part[|part| - 2..] == [Para([ExplanationTitle]), Para([data.explanation])]
  {
    var head := [Heading(2, KeyTitle)] + MetadataBlocks(data);
    assert head[1..] == MetadataBlocks(data);
    var answer := FormatKey(data);
    var tail := [Para([ExplanationTitle]), Para([data.explanation])];
    assert PageBreak !in head && PageBreak !in tail;
    ThreePieces(head, answer, tail);
    head + answer + tail
  }

  /** Where the three pieces of a concatenation sit, and that nothing else is in it. */
  lemma ThreePieces(a: seq<Block>, b: seq<Block>, c: seq<Block>)
    ensures (a + b + c)[..|a|] == a
    ensures (a + b + c)[|a|..|a| + |b|] == b
    ensures (a + b + c)[|a| + |b|..] == c
    ensures forall x :: x in a + b + c <==> x in a || x in b || x in c
  {
    var s := a + b + c;
    assert s[..|a|] == a;
    assert s[|a|..|a| + |b|] == b;
    assert s[|a| + |b|..] == c;
  }

  /** The student part, a page break, then the answer key. */
  function Document(data: GeneratedQuestion): (doc: seq<Block>)
    ensures |doc| == |StudentPart(data)| + 1 + |AnswerKey(data)|
    ensures doc[0] == Heading(1, SheetTitle)
    ensures doc[|StudentPart(data)|] == PageBreak
    ensures doc[|StudentPart(data)| + 1] == Heading(2, KeyTitle)
    ensures doc[..|StudentPart(data)|] == StudentPart(data)
    ensures doc[|StudentPart(data)| + 1..] == AnswerKey(data)
  {
    var student := StudentPart(data);
    var key := AnswerKey(data);
    ThreePieces(student, [PageBreak], key);
    student + [PageBreak] + key
  }

  /** The document has exactly one page break, between the student part and the answer key,
      and ends with the explanation. */
  lemma OnePageBreak(data: GeneratedQuestion)
    ensures forall i :: 0 <= i < |Document(data)| ==> (Document(data)[i] == PageBreak <==> i == |StudentPart(data)|)
    ensures Document(data)[|Document(data)| - 1] == Para([data.explanation])
  {
    var student := StudentPart(data);
    var key := AnswerKey(data);
    var doc := Document(data);
    forall i | 0 <= i < |doc|
      ensures doc[i] == PageBreak <==> i == |student|
    {
      if i < |student| {
        assert doc[i] == student[i];
      } else if i > |student| {
        assert doc[i] == key[i - |student| - 1];
      }
    }
    assert doc[|doc| - 1] == key[|key| - 1];
  }

  // ---------------------------------------------------------------------------
  // File name

  function DigitChar(d: nat): char
    requires d < 10
  {
    ('0' as int + d) as char
  }

  /** The decimal digits of `n`, without leading zeros. */
  function NatToDecimal(n: nat): (digits: string)
    ensures digits != []
    ensures forall i :: 0 <= i < |digits| ==> '0' <= digits[i] <= '9'
    decreases n
  {
    if n < 10 then [DigitChar(n)] else NatToDecimal(n / 10) + [DigitChar(n % 10)]
  }

  function DecimalValue(digits: string): nat
    requires forall i :: 0 <= i < |digits| ==> '0' <= digits[i] <= '9'
    decreases |digits|
  {
    if digits == [] then 0
    else DecimalValue(digits[..|digits| - 1]) * 10 + (digits[|digits| - 1] as int - '0' as int)
  }

  /** Reading the digits back gives the number. */
  lemma {:induction false} DecimalRoundTrip(n: nat)
    ensures DecimalValue(NatToDecimal(n)) == n
    decreases n
  {
    if n >= 10 {
      DecimalRoundTrip(n / 10);
      var digits := NatToDecimal(n);
      assert digits[..|digits| - 1] == NatToDecimal(n / 10);
    }
  }

  /** `Phieu_cau_hoi_<code>_<timestamp>.docx`. */
  function FileName(competencyCode: string, timestamp: nat): (name: string)
    ensures |name| == 14 + |competencyCode| + 1 + |NatToDecimal(timestamp)| + 5
    ensures name[..14] == "Phieu_cau_hoi_"
    ensures name[14..14 + |competencyCode|] == competencyCode
    ensures name[14 + |competencyCode|] == '_'
    ensures name[15 + |competencyCode|..|name| - 5] == NatToDecimal(timestamp)
    ensures name[|name| - 5..] == ".docx"
  {
    "Phieu_cau_hoi_" + competencyCode + "_" + NatToDecimal(timestamp) + ".docx"
  }

  /** Two exports of the same question at different times get different file names. */
  lemma FileNamesDiffer(competencyCode: string, t1: nat, t2: nat)
    requires t1 != t2
    ensures FileName(competencyCode, t1) != FileName(competencyCode, t2)
  {
    var head := "Phieu_cau_hoi_" + competencyCode + "_";
    var d1 := NatToDecimal(t1);
    var d2 := NatToDecimal(t2);
    assert FileName(competencyCode, t1) == head + d1 + ".docx";
    assert FileName(competencyCode, t2) == head + d2 + ".docx";
    if head + d1 + ".docx" == head + d2 + ".docx" {
      assert |d1| == |d2|;
      assert d1 == (head + d1 + ".docx")[|head|..|head| + |d1|];
      assert d2 == (head + d2 + ".docx")[|head|..|head| + |d2|];
      DecimalRoundTrip(t1);
      DecimalRoundTrip(t2);
    }
  }

  // ---------------------------------------------------------------------------
  // The export

  /** The option lines: the truthy entries are listed, then one paragraph is pushed per entry. */
  method BuildChoiceLines(entries: OptionEntries) returns (lines: seq<Block>)
    ensures lines == ChoiceLines(PresentOptions(entries))
  {
    var listed := PresentOptions(entries);
    lines := [];
    for i := 0 to |listed|
      invariant lines == ChoiceLines(listed[..i])
    {
      assert listed[..i + 1][..i] == listed[..i];
      lines := lines + [ChoiceLine(listed[i])];
    }
    assert listed[..|listed|] == listed;
  }

  /** The student table: the header row, then a row for each entry with a truthy value. */
  method BuildStatementTable(entries: OptionEntries) returns (rows: seq<seq<string>>)
    ensures rows == [StatementHeader] + StatementRows(PresentOptions(entries))
  {
    rows := [StatementHeader];
    for i := 0 to |entries|
      invariant rows == [StatementHeader] + StatementRows(PresentOptions(entries[..i]))
    {
      var (key, value) := entries[i];
      assert entries[..i + 1][..i] == entries[..i];
      if !Present(value) {
        continue;
      }
      assert PresentOptions(entries[..i + 1]) == PresentOptions(entries[..i]) + [(key, value.value)];
      rows := rows + [StatementRow((key, value.value))];
    }
    assert entries[..|entries|] == entries;
  }

  /** The quick-key entries, pushed for each found letter. */
  method BuildQuickKey(analysis: Option<SubAnalysis>) returns (quickKeyArray: seq<string>)
    ensures quickKeyArray == QuickEntries(analysis, Letters)
  {
    quickKeyArray := [];
    for i := 0 to |Letters|
      invariant quickKeyArray == QuickEntries(analysis, Letters[..i])
    {
      var key := Letters[i];
      assert Letters[..i + 1][..i] == Letters[..i];
      var sub := KeySub(analysis, key);
      if sub.Some? {
        quickKeyArray := quickKeyArray + [ToLower(key) + ") " + VerdictWord(sub.value.isCorrect)];
      }
    }
    assert Letters[..|Letters|] == Letters;
  }

  /** The detail rows, pushed for each found letter. */
  method BuildDetailRows(data: GeneratedQuestion) returns (analysisRows: seq<seq<string>>)
    ensures analysisRows == [DetailHeader] + DetailRows(data, Letters)
  {
    analysisRows := [DetailHeader];
    for i := 0 to |Letters|
      invariant analysisRows == [DetailHeader] + DetailRows(data, Letters[..i])
    {
      DetailRowsSnoc(data, Letters, i);
      analysisRows := PushDetailRow(data, Letters[i], analysisRows);
    }
    assert Letters[..|Letters|] == Letters;
  }

  /** The `forEach` callback: the letter's row is pushed when its analysis is found. */
  method PushDetailRow(data: GeneratedQuestion, key: string, rows: seq<seq<string>>)
    returns (pushed: seq<seq<string>>)
    ensures pushed == rows + DetailRow(data, key)
  {
    pushed := rows;
    var sub := KeySub(data.subQuestionAnalysis, key);
    if sub.Some? {
      var row := BuildDetailRow(data, key, sub.value);
      pushed := pushed + [row];
    }
  }

  /** One more key adds that key's row, if any, at the end. */
  lemma DetailRowsSnoc(data: GeneratedQuestion, keys: seq<string>, i: nat)
    requires i < |keys|
    ensures DetailRows(data, keys[..i + 1]) == DetailRows(data, keys[..i]) + DetailRow(data, keys[i])
  {
    assert keys[..i + 1][..i] == keys[..i];
  }

  /** One row of the detail table: the letter, the statement, the verdict, the level, the
      competency code and the rationale of a found statement. */
  method BuildDetailRow(data: GeneratedQuestion, key: string, sub: SubQuestionMetadata) returns (row: seq<string>)
    requires KeySub(data.subQuestionAnalysis, key) == Some(sub)
    ensures DetailRow(data, key) == [row]
  {
    var content := OptionText(data.options, key);
    var resultText := CorrectnessWord(sub.isCorrect);
    row := [ToLower(key) + ")", content, resultText, LevelText(sub.level), sub.competencyCode, sub.rationale];
  }

  /** The verdict cell, set by the source's `if`/`else if` chain over `isCorrect`. */
  method CorrectnessWord(isCorrect: Option<bool>) returns (resultText: string)
    ensures resultText == CorrectnessText(isCorrect)
  {
    resultText := "—";
    if isCorrect == Some(true) {
      resultText := "Đúng";
    } else if isCorrect == Some(false) {
      resultText := "Sai";
    }
  }

  /** The multiple-choice answer text: the raw answer, replaced by the matching option. */
  method BuildFullAnswerText(data: GeneratedQuestion) returns (fullAnswerText: string)
    ensures fullAnswerText == McAnswerText(data)
  {
    fullAnswerText := data.correctAnswer;
    if data.options.Some? {
      var key := Trim(data.correctAnswer);
      var entries := data.options.value;
      var i := 0;
      while i < |entries| && ToLower(entries[i].0) != ToLower(key)
        invariant 0 <= i <= |entries|
        invariant FirstKeyMatch(entries, key, i) == FirstKeyMatch(entries, key, 0)
      {
        i := i + 1;
      }
      if i < |entries| {
        fullAnswerText := entries[i].0 + ". " + ValueText(entries[i].1);
      }
    }
  }

  /** Part 1, for the student: the title, the format, the stem and the options. */
  method BuildStudentPart(data: GeneratedQuestion) returns (children: seq<Block>)
    ensures children == StudentPart(data)
  {
    var format := data.metadata.format;
    children := [Heading(1, SheetTitle), Para([FormatLabel + FormatText(format)])];
    children := children + [Para([StemLabel, data.stem])];
    var formatPart := BuildFormatPart(data);
    children := children + formatPart;
  }

  /** The options or answer line of part 1, by format. */
  method BuildFormatPart(data: GeneratedQuestion) returns (lines: seq<Block>)
    ensures lines == FormatPart(data)
  {
    var format := data.metadata.format;
    lines := [];
    if format == MultipleChoice && data.options.Some? {
      lines := BuildChoiceLines(data.options.value);
    } else if format == TrueFalse && data.options.Some? {
      var rows := BuildStatementTable(data.options.value);
      lines := [Table(rows), Blank];
    } else if format == ShortAnswer {
      lines := [Para([AnswerLine])];
    }
  }

  /** The true/false answer: the quick-key paragraph, then the titled detail table. */
  method BuildTrueFalseKey(data: GeneratedQuestion) returns (children: seq<Block>)
    ensures children == TrueFalseKey(data)
  {
    var quickKeyArray := BuildQuickKey(data.subQuestionAnalysis);
    children := [Para([QuickKeyLabel, Join(quickKeyArray, QuickKeySeparator)])];
    if data.subQuestionAnalysis.Some? {
      children := children + [Para([DetailTitle])];
      var analysisRows := BuildDetailRows(data);
      children := children + [Table(analysisRows), Blank];
    }
  }

  /** The answer of part 2, by format. */
  method BuildFormatKey(data: GeneratedQuestion) returns (children: seq<Block>)
    ensures children == FormatKey(data)
  {
    var format := data.metadata.format;
    if format == TrueFalse {
      children := BuildTrueFalseKey(data);
    } else if format == MultipleChoice {
      var fullAnswerText := BuildFullAnswerText(data);
      children := [Para([McAnswerLabel, fullAnswerText])] + RationaleBlocks(data);
    } else {
      children := [Para([AnswerLabel, data.correctAnswer])] + RationaleBlocks(data);
    }
  }

  /** Part 2, for the teacher: the heading, the general metadata, the answer and the explanation. */
  method BuildAnswerKey(data: GeneratedQuestion) returns (children: seq<Block>)
    ensures children == AnswerKey(data)
  {
    children := [Heading(2, KeyTitle),
                 Para([CodeLabel, data.metadata.competencyCode]),
                 Para([LevelLabel, LevelText(data.metadata.level)]),
                 Para([DescriptionLabel, data.metadata.competencyDescription]),
                 Para([ContextLabel, data.metadata.contextType]),
                 Blank];
    assert children == [Heading(2, KeyTitle)] + MetadataBlocks(data);
    var answer := BuildFormatKey(data);
    children := children + answer;
    children := children + [Para([ExplanationTitle]), Para([data.explanation])];
  }

  /** `exportQuestionToWord` up to the download: the blocks pushed in order and the file name. */
  method ExportQuestionToWord(data: GeneratedQuestion, timestamp: nat) returns (children: seq<Block>, fileName: string)
    ensures children == Document(data)
    ensures fileName == FileName(data.metadata.competencyCode, timestamp)
  {
    children := BuildStudentPart(data);
    children := children + [PageBreak];
    var key := BuildAnswerKey(data);
    children := children + key;
    fileName := "Phieu_cau_hoi_" + data.metadata.competencyCode + "_" + NatToDecimal(timestamp) + ".docx";
  }
}
