// The interviewer: follow-up questions about a production-log entry, from the language model when
// it gives two or three usable questions, else from the stored templates, else from fixed defaults.

module InterviewerService {
  import opened Common
  import opened Text
  import Sorting

  datatype Focus = Harmony | Melody | Rhythm | Mix | Emotion | Image | Structure

  datatype Depth = Shallow | Medium | Deep

  function FocusName(f: Focus): string
  {
    match f
    case Harmony => "harmony"
    case Melody => "melody"
    case Rhythm => "rhythm"
    case Mix => "mix"
    case Emotion => "emotion"
    case Image => "image"
    case Structure => "structure"
  }

  function DepthName(d: Depth): string
  {
    match d
    case Shallow => "shallow"
    case Medium => "medium"
    case Deep => "deep"
  }

  /** Membership in the seven focus areas, as `validFocusAreas.includes` and the focus schema check it. */
  function ParseFocus(s: string): (r: Option<Focus>)
    ensures r.Some? ==> FocusName(r.value) == s
    ensures r.None? ==> forall f: Focus :: FocusName(f) != s
  {
    if s == "harmony" then Some(Harmony)
    else if s == "melody" then Some(Melody)
    else if s == "rhythm" then Some(Rhythm)
    else if s == "mix" then Some(Mix)
    else if s == "emotion" then Some(Emotion)
    else if s == "image" then Some(Image)
    else if s == "structure" then Some(Structure)
    else None
  }

  function ParseDepth(s: string): (r: Option<Depth>)
    ensures r.Some? ==> DepthName(r.value) == s
    ensures r.None? ==> forall d: Depth :: DepthName(d) != s
  {
    if s == "shallow" then Some(Shallow)
    else if s == "medium" then Some(Medium)
    else if s == "deep" then Some(Deep)
    else None
  }

  datatype Question = Question(text: string, focus: Focus, depth: Depth, order: nat)

  // ----- input -----

  datatype RawInput = RawInput(
    sessionId: string,
    focusArea: string,
    intentHypothesis: string,
    userShortNote: string,
    previousQuestions: Option<seq<string>>)

  /** A checked input; a missing list of previous questions is the empty list. */
  datatype Input = Input(
    sessionId: string,
    focusArea: Focus,
    intentHypothesis: string,
    userShortNote: string,
    previousQuestions: seq<string>)

  const INVALID_INPUT: string := "Invalid question generation input"

  /** `GenerateQuestionsInputSchema.parse`: a UUID session, one of the seven focus areas, a non-empty hypothesis and note. */
  function ValidateInput(raw: RawInput): (r: Result<Input>)
    ensures r.Ok? <==> (IsUuid(raw.sessionId) && ParseFocus(raw.focusArea).Some?
      && |raw.intentHypothesis| >= 1 && |raw.userShortNote| >= 1)
    ensures r.Ok? ==> (FocusName(r.value.focusArea) == raw.focusArea && r.value.userShortNote == raw.userShortNote
      && r.value.previousQuestions == (if raw.previousQuestions.Some? then raw.previousQuestions.value else []))
  {
    var focus := ParseFocus(raw.focusArea);
    if !IsUuid(raw.sessionId) || focus.None? || |raw.intentHypothesis| < 1 || |raw.userShortNote| < 1 then
      Err(INVALID_INPUT)
    else
      Ok(Input(raw.sessionId, focus.value, raw.intentHypothesis, raw.userShortNote,
               if raw.previousQuestions.Some? then raw.previousQuestions.value else []))
  }

  // ----- the fixed tables -----

  /** The two questions asked about each focus area when nothing better is available. */
  function DefaultQuestions(f: Focus): (qs: seq<Question>)
    ensures |qs| == 2
    ensures qs[0].focus == f && qs[1].focus == f
    ensures qs[0].depth == Shallow && qs[1].depth == Medium
    ensures qs[0].order == 0 && qs[1].order == 1
    ensures qs[0].text != [] && qs[1].text != [] && qs[0].text != qs[1].text
  {
    var texts := match f
      case Harmony => ("どのコードを使用しましたか？", "コード進行を変更した理由は何ですか？")
      case Melody => ("メロディをどの音域に配置しましたか？", "メロディラインを変更した意図は何ですか？")
      case Rhythm => ("どのリズムパターンを使用しましたか？", "リズムを変更した理由は何ですか？")
      case Mix => ("どの楽器の音量を調整しましたか？", "ミックスバランスを変更した狙いは何ですか？")
      case Emotion => ("どのような感情を表現したかったですか？", "その感情を表現するために何を変更しましたか？")
      case Image => ("どのようなイメージを想起させたいですか？", "そのイメージを創り出すために何を追加しましたか？")
      case Structure => ("楽曲のどの部分を変更しましたか？", "楽曲構成を変更した理由は何ですか？");
    [Question(texts.0, f, Shallow, 0), Question(texts.1, f, Medium, 1)]
  }

  /** `translateFocusArea`: the Japanese display name of each focus area. */
  function TranslateFocusArea(f: Focus): (t: string)
    ensures t != []
  {
    match f
    case Harmony => "和音・コード進行"
    case Melody => "メロディ"
    case Rhythm => "リズム・グルーブ"
    case Mix => "ミックス・音響"
    case Emotion => "感情表現"
    case Image => "音像・イメージ"
    case Structure => "楽曲構成"
  }

  /** No two focus areas share a display name. */
  lemma TranslationInjective(f: Focus, g: Focus)
    requires f != g
    ensures TranslateFocusArea(f) != TranslateFocusArea(g)
  {
  }

  // ----- the model's questions -----

  /** One entry of the model's `questions` array; `None` stands for a missing or empty field. */
  datatype AiItem = AiItem(text: Option<string>, focus: Option<string>, depth: Option<string>)

  /** A question as the model's reply gives it, before normalisation. */
  datatype RawQuestion = RawQuestion(text: string, focus: string, depth: string, order: nat)

  /** The mapping in `generateQuestionsWithAI`: empty text, the requested focus and "medium" fill missing fields. */
  function FromAi(items: seq<AiItem>, expected: Focus): (r: seq<RawQuestion>)
    ensures |r| == |items|
    ensures forall i :: 0 <= i < |r| ==> (r[i].order == i
      && r[i].text == (if items[i].text.Some? then items[i].text.value else "")
      && r[i].focus == (if items[i].focus.Some? then items[i].focus.value else FocusName(expected))
      && r[i].depth == (if items[i].depth.Some? then items[i].depth.value else "medium"))
  {
    seq(|items|, i requires 0 <= i < |items| =>
      RawQuestion(if items[i].text.Some? then items[i].text.value else "",
                  if items[i].focus.Some? then items[i].focus.value else FocusName(expected),
                  if items[i].depth.Some? then items[i].depth.value else "medium",
                  i))
  }

  /** A question survives when its text has something besides white space. */
  predicate HasText(q: RawQuestion)
  {
    !AllWhitespace(q.text)
  }

  /** One surviving question, trimmed, its focus and depth replaced when not recognised, renumbered. */
  function Normalize(q: RawQuestion, expected: Focus, index: nat): (n: Question)
    ensures ParseFocus(q.focus).Some? ==> n.focus == ParseFocus(q.focus).value
    ensures ParseFocus(q.focus).None? ==> n.focus == expected
    ensures ParseDepth(q.depth).Some? ==> n.depth == ParseDepth(q.depth).value
    ensures ParseDepth(q.depth).None? ==> n.depth == Medium
    ensures n.text == Trim(q.text) && n.order == index
  {
    var focus := ParseFocus(q.focus);
    var depth := ParseDepth(q.depth);
    Question(Trim(q.text), if focus.Some? then focus.value else expected, if depth.Some? then depth.value else Medium, index)
  }

  /** `validateAndNormalizeQuestions`: drop the questions without text, then normalise the rest in order. */
  function ValidateAndNormalize(qs: seq<RawQuestion>, expected: Focus): (r: seq<Question>)
    ensures |r| == CountWhere(qs, HasText)
    ensures forall i :: 0 <= i < |r| ==> r[i].order == i
    ensures forall i :: 0 <= i < |r| ==> (r[i].text != []
      && !IsJsWhitespace(r[i].text[0]) && !IsJsWhitespace(r[i].text[|r[i].text| - 1]))
  {
    var kept := Filter(qs, HasText);
    assert forall i :: 0 <= i < |kept| ==> kept[i] in kept;
    seq(|kept|, i requires 0 <= i < |kept| => Normalize(kept[i], expected, i))
  }

  /**
   * Appending a question appends its normalised form, numbered after the questions kept so far, or
   * nothing when it has no text: the survivors keep their relative order and are numbered 0, 1, ...
   */
  lemma NormalizeAppend(qs: seq<RawQuestion>, q: RawQuestion, expected: Focus)
    ensures ValidateAndNormalize(qs + [q], expected) ==
      ValidateAndNormalize(qs, expected) + (if HasText(q) then [Normalize(q, expected, CountWhere(qs, HasText))] else [])
  {
    var s := qs + [q];
    assert s[..|s| - 1] == qs;
    var kept := Filter(qs, HasText);
    assert Filter(s, HasText) == kept + (if HasText(q) then [q] else []);
    if HasText(q) {
      NormalizeEachAppend(kept, q, expected);
    }
  }

  /** Normalising one more survivor appends it numbered after the others. */
  lemma NormalizeEachAppend(kept: seq<RawQuestion>, q: RawQuestion, expected: Focus)
    ensures var s := kept + [q];
      seq(|s|, i requires 0 <= i < |s| => Normalize(s[i], expected, i))
      == seq(|kept|, i requires 0 <= i < |kept| => Normalize(kept[i], expected, i)) + [Normalize(q, expected, |kept|)]
  {
    var s := kept + [q];
    var a := seq(|s|, i requires 0 <= i < |s| => Normalize(s[i], expected, i));
    var b := seq(|kept|, i requires 0 <= i < |kept| => Normalize(kept[i], expected, i)) + [Normalize(q, expected, |kept|)];
    forall i | 0 <= i < |s|
      ensures a[i] == b[i]
    {
      if i < |kept| {
        assert s[i] == kept[i];
      }
    }
  }

  /** Every question of the model's reply that has text comes through; only blank ones are dropped. */
  lemma NormalizeKeepsTexted(qs: seq<RawQuestion>, expected: Focus)
    ensures (forall q :: q in qs ==> HasText(q)) ==> |ValidateAndNormalize(qs, expected)| == |qs|
    ensures (forall q :: q in qs ==> !HasText(q)) ==> ValidateAndNormalize(qs, expected) == []
  {
    if forall q :: q in qs ==> HasText(q) {
      CountAll(qs);
    }
    if forall q :: q in qs ==> !HasText(q) {
      CountNone(qs);
    }
  }

  lemma {:induction false} CountAll(qs: seq<RawQuestion>)
    requires forall q :: q in qs ==> HasText(q)
    ensures CountWhere(qs, HasText) == |qs|
  {
    if qs != [] {
      var prev := qs[..|qs| - 1];
      assert forall q :: q in prev ==> q in qs;
      CountAll(prev);
      assert qs[|qs| - 1] in qs;
    }
  }

  lemma {:induction false} CountNone(qs: seq<RawQuestion>)
    requires forall q :: q in qs ==> !HasText(q)
    ensures CountWhere(qs, HasText) == 0
  {
    if qs != [] {
      var prev := qs[..|qs| - 1];
      assert forall q :: q in prev ==> q in qs;
      CountNone(prev);
      assert qs[|qs| - 1] in qs;
    }
  }

  // ----- stored templates -----

  /** A row of the question template table. */
  datatype TemplateRow = TemplateRow(templateText: string, focus: Focus, depth: Depth, enabled: bool, priority: int)

  function NegPriority(row: TemplateRow): int
  {
    -row.priority
  }

  /** The enabled templates of a focus area, highest priority first (ties in table order). */
  function RankedTemplates(rows: seq<TemplateRow>, f: Focus): seq<TemplateRow>
  {
    Sorting.SortBy(Filter(rows, (row: TemplateRow) => row.focus == f && row.enabled), NegPriority)
  }

  /** `getQuestionTemplates`: the first `limit` ranked templates, as questions numbered in that order. */
  function GetQuestionTemplates(rows: seq<TemplateRow>, f: Focus, limit: nat): (r: seq<Question>)
    ensures |r| <= limit
    ensures forall i :: 0 <= i < |r| ==> r[i].focus == f && r[i].order == i
  {
    var ranked := RankedTemplates(rows, f);
    var top := ranked[..Min(limit, |ranked|)];
    RankedMeaning(rows, f);
    seq(|top|, i requires 0 <= i < |top| => Question(top[i].templateText, top[i].focus, top[i].depth, i))
  }

  lemma RankedMeaning(rows: seq<TemplateRow>, f: Focus)
    ensures var ranked := RankedTemplates(rows, f);
      Sorting.SortedBy(ranked, NegPriority)
      && forall row :: row in ranked <==> row in rows && row.focus == f && row.enabled
  {
    var matching := Filter(rows, (row: TemplateRow) => row.focus == f && row.enabled);
    Sorting.SortByProperties(matching, NegPriority);
    Sorting.SortByMembers(matching, NegPriority);
  }

  /**
   * The templates chosen are enabled ones of the focus area, and any such template left out has a
   * priority no higher than every chosen one's.
   */
  lemma TemplatesByPriority(rows: seq<TemplateRow>, f: Focus, limit: nat, row: TemplateRow)
    requires row in rows && row.focus == f && row.enabled
    ensures var ranked := RankedTemplates(rows, f);
      var top := ranked[..Min(limit, |ranked|)];
      (forall t :: t in top ==> t in rows && t.focus == f && t.enabled)
      && (row !in top ==> |top| == limit && forall i :: 0 <= i < |top| ==> row.priority <= top[i].priority)
  {
    var ranked := RankedTemplates(rows, f);
    RankedMeaning(rows, f);
    var top := ranked[..Min(limit, |ranked|)];
    assert forall t :: t in top ==> t in ranked;
    if row !in top {
      var j :| 0 <= j < |ranked| && ranked[j] == row;
      assert j >= |top|;
      forall i | 0 <= i < |top|
        ensures row.priority <= top[i].priority
      {
        Sorting.SortedByApart(ranked, NegPriority, i, j);
      }
    }
  }

  // ----- the fallback chain -----

  datatype GenerationMethod = Ai | Template | Fallback

  datatype Output = Output(questions: seq<Question>, confidence: real, generationMethod: GenerationMethod)

  const TEMPLATE_LIMIT: nat := 3

  /** The model's questions are used when two or three survive normalisation. */
  predicate AiAccepted(normalized: seq<Question>)
  {
    2 <= |normalized| <= 3
  }

  /** `fallbackToTemplates` and `fallbackToDefault`: stored templates at 0.5 if any, else the defaults at 0.3. */
  function FallbackChain(rows: seq<TemplateRow>, f: Focus): (o: Output)
    ensures o.generationMethod == Template <==> GetQuestionTemplates(rows, f, TEMPLATE_LIMIT) != []
    ensures o.generationMethod == Template ==> o.confidence == 0.5 && o.questions == GetQuestionTemplates(rows, f, TEMPLATE_LIMIT)
    ensures o.generationMethod == Fallback ==> o.confidence == 0.3 && o.questions == DefaultQuestions(f)
    ensures o.generationMethod != Ai
  {
    var templates := GetQuestionTemplates(rows, f, TEMPLATE_LIMIT);
    if |templates| > 0 then Output(templates, 0.5, Template)
    else Output(DefaultQuestions(f), 0.3, Fallback)
  }

  /**
   * `generateQuestions`. The model's reply is `ai` (`None` when the call, the reply or its parsing
   * failed) and the template table `rows` (empty when reading it failed); an input the schema
   * rejects is an error thrown before either is consulted.
   */
  function GenerateQuestions(raw: RawInput, ai: Option<seq<AiItem>>, rows: seq<TemplateRow>): (r: Result<Output>)
    ensures r.Err? <==> ValidateInput(raw).Err?
    ensures r.Ok? ==> (var f := ValidateInput(raw).value.focusArea;
      var normalized := if ai.Some? then ValidateAndNormalize(FromAi(ai.value, f), f) else [];
      (r.value.generationMethod == Ai <==> ai.Some? && AiAccepted(normalized))
      && (r.value.generationMethod == Ai ==> r.value.confidence == 0.85 && r.value.questions == normalized)
      && (r.value.generationMethod != Ai ==> r.value == FallbackChain(rows, f)))
  {
    var validated := ValidateInput(raw);
    if validated.Err? then Err(validated.error)
    else
      var f := validated.value.focusArea;
      var normalized := if ai.Some? then ValidateAndNormalize(FromAi(ai.value, f), f) else [];
      if ai.Some? && AiAccepted(normalized) then Ok(Output(normalized, 0.85, Ai))
      else Ok(FallbackChain(rows, f))
  }

  /** Apart from the template path, the answer always holds two or three questions, numbered from 0. */
  lemma AnswerSize(raw: RawInput, ai: Option<seq<AiItem>>, rows: seq<TemplateRow>)
    requires GenerateQuestions(raw, ai, rows).Ok?
    ensures var o := GenerateQuestions(raw, ai, rows).value;
      (o.generationMethod != Template ==> 2 <= |o.questions| <= 3)
      && (o.generationMethod == Template ==> 1 <= |o.questions| <= 3)
      && forall i :: 0 <= i < |o.questions| ==> o.questions[i].order == i
  {
  }

  /** A single stored template becomes a one-question answer, outside the two-to-three range the output schema states. */
  lemma SingleTemplateAnswersOne(f: Focus, t: TemplateRow)
    requires t.focus == f && t.enabled
    ensures var o := FallbackChain([t], f); o.generationMethod == Template && |o.questions| == 1
  {
    var matching := Filter([t], (row: TemplateRow) => row.focus == f && row.enabled);
    assert [t][..0] == [];
    assert matching == [t];
  }

  // ----- the user prompt -----

  function NoteSection(input: Input): string
  {
    "## ユーザーの制作ログ\n" + input.userShortNote + "\n\n"
  }

  function AnalysisSection(input: Input): string
  {
    "## AIの分析結果\n" + "- **Focus Area**: " + FocusName(input.focusArea) + "\n"
    + "- **意図の仮説**: " + input.intentHypothesis + "\n\n"
  }

  /** The previous questions, one per line, numbered from 1. */
  function Numbered(previous: seq<string>): (lines: seq<string>)
    ensures |lines| == |previous|
    ensures forall i :: 0 <= i < |previous| ==> lines[i] == NatToString(i + 1) + ". " + previous[i]
  {
    seq(|previous|, i requires 0 <= i < |previous| => NatToString(i + 1) + ". " + previous[i])
  }

  function PreviousSection(previous: seq<string>): string
  {
    "## 既に聞いた質問\n" + Join(Numbered(previous), "\n") + "\n\n"
  }

  function Request(input: Input): string
  {
    "上記を踏まえて、**" + FocusName(input.focusArea) + "**に焦点を当てた2〜3問の質問を生成してください。"
  }

  /**
   * `buildUserPrompt`: the note, the analysis, the numbered previous questions when there are any,
   * and the request for questions about the focus area, appended in that order.
   */
  method BuildUserPrompt(input: Input) returns (prompt: string)
    ensures input.previousQuestions == [] ==> prompt == NoteSection(input) + AnalysisSection(input) + Request(input)
    ensures input.previousQuestions != [] ==>
      prompt == NoteSection(input) + AnalysisSection(input) + PreviousSection(input.previousQuestions) + Request(input)
  {
    prompt := "## ユーザーの制作ログ\n" + input.userShortNote + "\n\n";
    prompt := prompt + "## AIの分析結果\n";
    prompt := prompt + "- **Focus Area**: " + FocusName(input.focusArea) + "\n";
    prompt := prompt + "- **意図の仮説**: " + input.intentHypothesis + "\n\n";
    assert prompt == NoteSection(input) + AnalysisSection(input);
    if |input.previousQuestions| > 0 {
      prompt := prompt + "## 既に聞いた質問\n";
      prompt := prompt + Join(Numbered(input.previousQuestions), "\n");
      prompt := prompt + "\n\n";
      assert prompt == NoteSection(input) + AnalysisSection(input) + PreviousSection(input.previousQuestions);
    }
    prompt := prompt + Request(input);
  }

  /** The previous-questions section is the line "1. <question>" for a single previous question. */
  lemma SinglePreviousLine(q: string)
    ensures PreviousSection([q]) == "## 既に聞いた質問\n" + "1. " + q + "\n\n"
  {
    assert Numbered([q])[0] == "1. " + q by {
      assert NatToString(1) == "1";
    }
  }

  // ----- template variables -----

  /** The `{name}` placeholder of a variable. */
  function Placeholder(key: string): (p: string)
    ensures |p| == |key| + 2 && p[0] == '{'
  {
    "{" + key + "}"
  }

  /** Every variable applied in turn, each replacing all occurrences of its placeholder. */
  function SubstituteAll(template: string, variables: seq<(string, string)>): string
  {
    if variables == [] then template
    else
      var (key, value) := variables[|variables| - 1];
      ReplaceAll(SubstituteAll(template, variables[..|variables| - 1]), Placeholder(key), value)
  }

  /** `substituteVariables`, for names without regular-expression syntax, in the order the entries are listed. */
  method SubstituteVariables(template: string, variables: seq<(string, string)>) returns (result: string)
    ensures result == SubstituteAll(template, variables)
  {
    result := template;
    var i := 0;
    while i < |variables|
      invariant 0 <= i <= |variables|
      invariant result == SubstituteAll(template, variables[..i])
    {
      var (key, value) := variables[i];
      assert variables[..i + 1][..i] == variables[..i];
      result := ReplaceAll(result, Placeholder(key), value);
      i := i + 1;
    }
    assert variables[..i] == variables;
  }

  /** A template without placeholders comes back unchanged, whatever the variables. */
  lemma {:induction false} SubstituteNoPlaceholders(template: string, variables: seq<(string, string)>)
    requires BraceFree(template)
    ensures SubstituteAll(template, variables) == template
  {
    if variables != [] {
      var (key, value) := variables[|variables| - 1];
      SubstituteNoPlaceholders(template, variables[..|variables| - 1]);
      LacksFirstChar(template, Placeholder(key));
    }
  }

  /**
   * A template with one placeholder, filled by its variable: the value takes the placeholder's
   * place, with its "$" patterns expanded as the `RegExp` replace does; a value without '$' lands
   * verbatim.
   */
  lemma SubstituteOne(a: string, key: string, b: string, value: string)
    requires BraceFree(a) && BraceFree(b)
    ensures SubstituteAll(a + Placeholder(key) + b, [(key, value)]) == a + Expand(value, Placeholder(key), a, b) + b
    ensures '$' !in value ==> SubstituteAll(a + Placeholder(key) + b, [(key, value)]) == a + value + b
  {
    var variables := [(key, value)];
    assert variables[..0] == [];
    ReplaceAllOnce(a, Placeholder(key), b, value);
  }

  /** A variable whose value is "$&" puts each matched placeholder back, so the template is unchanged. */
  lemma SubstituteMatchedKeepsTemplate(template: string, key: string)
    ensures SubstituteAll(template, [(key, "$&")]) == template
  {
    var variables := [(key, "$&")];
    assert variables[..0] == [];
    ReplaceAllSelf(template, Placeholder(key));
  }
}
