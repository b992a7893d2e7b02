// The AI material generator: request validation, the prompt template of
// each format and the placeholder filling, the monthly quota decision, and
// the generation flow that guards on the quota and sets the quality status.

module AiMaterialService {
  import opened Common
  import opened Text
  import SR = SubscriptionsRepository

  datatype Format = Quiz | Summary | Flashcards | Practice | Music

  datatype Difficulty = Beginner | Intermediate | Advanced

  datatype Instrument = Piano | Guitar | Violin | Flute

  function FormatName(f: Format): string
  {
    match f
    case Quiz => "quiz"
    case Summary => "summary"
    case Flashcards => "flashcards"
    case Practice => "practice"
    case Music => "music"
  }

  function DifficultyName(d: Difficulty): string
  {
    match d
    case Beginner => "beginner"
    case Intermediate => "intermediate"
    case Advanced => "advanced"
  }

  function InstrumentName(i: Instrument): string
  {
    match i
    case Piano => "piano"
    case Guitar => "guitar"
    case Violin => "violin"
    case Flute => "flute"
  }

  function ParseFormat(s: string): (r: Option<Format>)
    ensures r.Some? ==> FormatName(r.value) == s
    ensures r.None? ==> forall f: Format :: FormatName(f) != s
  {
    if s == "quiz" then Some(Quiz)
    else if s == "summary" then Some(Summary)
    else if s == "flashcards" then Some(Flashcards)
    else if s == "practice" then Some(Practice)
    else if s == "music" then Some(Music)
    else None
  }

  function ParseDifficulty(s: string): (r: Option<Difficulty>)
    ensures r.Some? ==> DifficultyName(r.value) == s
    ensures r.None? ==> forall d: Difficulty :: DifficultyName(d) != s
  {
    if s == "beginner" then Some(Beginner)
    else if s == "intermediate" then Some(Intermediate)
    else if s == "advanced" then Some(Advanced)
    else None
  }

  function ParseInstrument(s: string): (r: Option<Instrument>)
    ensures r.Some? ==> InstrumentName(r.value) == s
    ensures r.None? ==> forall i: Instrument :: InstrumentName(i) != s
  {
    if s == "piano" then Some(Piano)
    else if s == "guitar" then Some(Guitar)
    else if s == "violin" then Some(Violin)
    else if s == "flute" then Some(Flute)
    else None
  }

  // ----- validation -----

  /** A request as it arrives, before the schema checks it. */
  datatype RawRequest = RawRequest(
    userId: string,
    subject: string,
    topic: string,
    difficulty: string,
    format: string,
    additionalContext: Option<string>,
    instrument: Option<string>,
    isPublic: Option<bool>)

  datatype Request = Request(
    userId: string,
    subject: string,
    topic: string,
    difficulty: Difficulty,
    format: Format,
    additionalContext: Option<string>,
    instrument: Option<Instrument>,
    isPublic: bool)

  const INVALID_REQUEST: string := "Invalid material generation request"

  /**
   * `materialGenerationSchema`: a subject of 1 to 100 characters, a topic of 1 to 200, one of the
   * three difficulties and five formats, one of the four instruments if any, private by default.
   */
  function Validate(raw: RawRequest): (r: Result<Request>)
    ensures r.Ok? <==> (1 <= |raw.subject| <= 100 && 1 <= |raw.topic| <= 200
      && ParseDifficulty(raw.difficulty).Some? && ParseFormat(raw.format).Some?
      && (raw.instrument.None? || ParseInstrument(raw.instrument.value).Some?))
    ensures r.Ok? ==> (r.value.subject == raw.subject && r.value.topic == raw.topic
      && FormatName(r.value.format) == raw.format && DifficultyName(r.value.difficulty) == raw.difficulty
      && r.value.additionalContext == raw.additionalContext
      && r.value.isPublic == (raw.isPublic == Some(true)))
    ensures r.Ok? ==> (r.value.userId == raw.userId
      && (r.value.instrument.None? <==> raw.instrument.None?)
      && (r.value.instrument.Some? ==> InstrumentName(r.value.instrument.value) == raw.instrument.value))
  {
    var difficulty := ParseDifficulty(raw.difficulty);
    var format := ParseFormat(raw.format);
    var instrument := if raw.instrument.Some? then ParseInstrument(raw.instrument.value) else None;
    if !(1 <= |raw.subject| <= 100) || !(1 <= |raw.topic| <= 200) || difficulty.None? || format.None?
       || (raw.instrument.Some? && instrument.None?) then
      Err(INVALID_REQUEST)
    else
      Ok(Request(raw.userId, raw.subject, raw.topic, difficulty.value, format.value, raw.additionalContext,
                 instrument, if raw.isPublic.Some? then raw.isPublic.value else false))
  }

  // ----- templates -----

  /** What fills the five placeholders of a template. */
  datatype Values = Values(subject: string, topic: string, difficulty: string, instrument: string, context: string)

  const SUBJECT_HOLE: string := "{subject}"
  const TOPIC_HOLE: string := "{topic}"
  const DIFFICULTY_HOLE: string := "{difficulty}"
  const INSTRUMENT_HOLE: string := "{instrument}"
  const CONTEXT_HOLE: string := "{context}"

  const HOLES: Values := Values(SUBJECT_HOLE, TOPIC_HOLE, DIFFICULTY_HOLE, INSTRUMENT_HOLE, CONTEXT_HOLE)

  /** The opening sentence of each template, up to the request details. */
  function Lead(f: Format): string
  {
    match f
    case Quiz => "You are an expert educator. " + "Generate a quiz on the following topic."
    case Summary => "You are an expert educator. " + "Create a comprehensive summary " + "of the following topic."
    case Flashcards => "You are an expert educator. " + "Create flashcards for studying " + "the following topic."
    case Practice => "You are an expert educator. " + "Create practice problems " + "for the following topic."
    case Music => "You are a world-renowned music " + "educator and composer." + "\n\nREQUEST DETAILS:"
  }

  /** The request details start with the subject. */
  function SubjectLabel(f: Format): string
  {
    Lead(f) + "\n\n" + "Subject: "
  }

  const TOPIC_LABEL: string := "\nTopic: "

  function DifficultyLabel(f: Format): string
  {
    if f == Music then "\nDifficulty Level: " else "\nDifficulty: "
  }

  const INSTRUMENT_LABEL: string := "\nInstrument: "

  const CONTEXT_LABEL: string := "\nAdditional Context: "

  /** The instructions after the request details, shortened to the JSON shape asked for, which opens a brace. */
  function Tail(f: Format): string
  {
    JsonRequest(f) + "{\n" + JsonShape(f)
  }

  function JsonRequest(f: Format): string
  {
    "\n\nReturn the " + FormatName(f) + " in the following JSON format:\n"
  }

  function JsonShape(f: Format): string
  {
    "  \"type\": \"" + FormatName(f) + "\"\n}"
  }

  /** A template's text with its placeholders filled by `v`; only the music template asks for an instrument. */
  function Filled(f: Format, v: Values): string
  {
    SubjectLabel(f) + v.subject + TOPIC_LABEL + v.topic
    + Details(DifficultyLabel(f), v.difficulty, f == Music, INSTRUMENT_LABEL, v.instrument, CONTEXT_LABEL, v.context, Tail(f))
  }

  /** The template from its difficulty line on, placeholders unfilled. */
  function DetailHoles(f: Format): string
  {
    Details(DifficultyLabel(f), DIFFICULTY_HOLE, f == Music, INSTRUMENT_LABEL, INSTRUMENT_HOLE, CONTEXT_LABEL, CONTEXT_HOLE, Tail(f))
  }

  function Template(f: Format): string
  {
    Filled(f, HOLES)
  }

  /** `getPromptTemplate`: the template of one of the five formats; any other name is an error. */
  function GetPromptTemplate(format: string): (r: Result<string>)
    ensures r.Ok? <==> ParseFormat(format).Some?
    ensures r.Ok? ==> r.value == Template(ParseFormat(format).value)
    ensures r.Err? ==> r.error == "Unknown material format: " + format
  {
    var f := ParseFormat(format);
    if f.Some? then Ok(Template(f.value)) else Err("Unknown material format: " + format)
  }

  /** The chain of `replace` calls: each placeholder's first occurrence only, in this order. */
  function Substitute(template: string, v: Values): string
  {
    var s1 := ReplaceFirst(template, SUBJECT_HOLE, v.subject);
    var s2 := ReplaceFirst(s1, TOPIC_HOLE, v.topic);
    var s3 := ReplaceFirst(s2, DIFFICULTY_HOLE, v.difficulty);
    var s4 := ReplaceFirst(s3, INSTRUMENT_HOLE, v.instrument);
    ReplaceFirst(s4, CONTEXT_HOLE, v.context)
  }

  /** The values `buildPrompt` substitutes: an empty or missing instrument is piano, an empty or missing context "None". */
  function ValuesOf(req: Request): Values
  {
    Values(req.subject, req.topic, DifficultyName(req.difficulty),
           if req.instrument.Some? then InstrumentName(req.instrument.value) else "piano",
           if req.additionalContext.Some? && req.additionalContext.value != "" then req.additionalContext.value else "None")
  }

  /** `buildPrompt`. */
  function BuildPrompt(req: Request): string
  {
    Substitute(Template(req.format), ValuesOf(req))
  }

  // ----- the fill -----

  lemma EducatorLeadBraceFree(a: string, b: string)
    requires BraceFree(a) && BraceFree(b)
    ensures BraceFree("You are an expert educator. " + a + b)
  {
    var educator := "You are an expert educator. ";
    assert BraceFree(educator);
    BraceFreeConcat(educator, a);
    BraceFreeConcat(educator + a, b);
  }

  lemma QuizLeadBraceFree()
    ensures BraceFree(Lead(Quiz))
  {
    var s := "Generate a quiz on the following topic.";
    assert BraceFree(s);
    EducatorLeadBraceFree(s, "");
    assert "You are an expert educator. " + s + "" == Lead(Quiz);
  }

  lemma SummaryLeadBraceFree()
    ensures BraceFree(Lead(Summary))
  {
    var a, b := "Create a comprehensive summary ", "of the following topic.";
    assert BraceFree(a);
    assert BraceFree(b);
    EducatorLeadBraceFree(a, b);
  }

  lemma FlashcardsLeadBraceFree()
    ensures BraceFree(Lead(Flashcards))
  {
    var a, b := "Create flashcards for studying ", "the following topic.";
    assert BraceFree(a);
    assert BraceFree(b);
    EducatorLeadBraceFree(a, b);
  }

  lemma PracticeLeadBraceFree()
    ensures BraceFree(Lead(Practice))
  {
    var a, b := "Create practice problems ", "for the following topic.";
    assert BraceFree(a);
    assert BraceFree(b);
    EducatorLeadBraceFree(a, b);
  }

  lemma MusicLeadBraceFree()
    ensures BraceFree(Lead(Music))
  {
    var a, b, c := "You are a world-renowned music ", "educator and composer.", "\n\nREQUEST DETAILS:";
    assert BraceFree(a);
    assert BraceFree(b);
    assert BraceFree(c);
    BraceFreeConcat(a, b);
    BraceFreeConcat(a + b, c);
  }

  lemma LeadBraceFree(f: Format)
    ensures BraceFree(Lead(f))
  {
    match f {
      case Quiz => QuizLeadBraceFree();
      case Summary => SummaryLeadBraceFree();
      case Flashcards => FlashcardsLeadBraceFree();
      case Practice => PracticeLeadBraceFree();
      case Music => MusicLeadBraceFree();
    }
  }

  lemma LabelsBraceFree(f: Format)
    ensures BraceFree(SubjectLabel(f)) && BraceFree(TOPIC_LABEL) && BraceFree(DifficultyLabel(f))
    ensures BraceFree(INSTRUMENT_LABEL) && BraceFree(CONTEXT_LABEL)
  {
    LeadBraceFree(f);
    SubjectLineBraceFree(Lead(f));
    FixedLabelsBraceFree();
    DifficultyLabelBraceFree(f);
  }

  lemma SubjectLineBraceFree(lead: string)
    requires BraceFree(lead)
    ensures BraceFree(lead + "\n\n" + "Subject: ")
  {
    var a, b := "\n\n", "Subject: ";
    assert BraceFree(a);
    assert BraceFree(b);
    BraceFreeConcat(lead, a);
    BraceFreeConcat(lead + a, b);
  }

  lemma DifficultyLabelBraceFree(f: Format)
    ensures BraceFree(DifficultyLabel(f))
  {
    if f == Music {
      assert BraceFree("\nDifficulty Level: ");
    } else {
      assert BraceFree("\nDifficulty: ");
    }
  }

  lemma FixedLabelsBraceFree()
    ensures BraceFree(TOPIC_LABEL) && BraceFree(INSTRUMENT_LABEL) && BraceFree(CONTEXT_LABEL)
  {
    assert BraceFree(TOPIC_LABEL);
    assert BraceFree(INSTRUMENT_LABEL);
  }

  /** Every '{' is followed by a line break: no placeholder starts there. */
  predicate BracesOpenLines(s: string)
  {
    forall k :: 0 <= k < |s| - 1 ==> !(s[k] == '{' && s[k + 1] != '\n')
  }

  lemma BracesOpenLinesConcat(a: string, b: string)
    requires BracesOpenLines(a) && BracesOpenLines(b) && (|a| == 0 || a[|a| - 1] != '{')
    ensures BracesOpenLines(a + b)
  {
    var s := a + b;
    forall k | 0 <= k < |s| - 1
      ensures !(s[k] == '{' && s[k + 1] != '\n')
    {
      if k + 1 < |a| {
        assert s[k] == a[k] && s[k + 1] == a[k + 1];
      } else if k + 1 == |a| {
        assert s[k] == a[k];
      } else {
        assert s[k] == b[k - |a|] && s[k + 1] == b[k + 1 - |a|];
      }
    }
  }

  lemma JsonRequestBraceFree(f: Format)
    ensures BraceFree(JsonRequest(f))
  {
    assert BraceFree("\n\nReturn the ") && BraceFree(FormatName(f)) && BraceFree(" in the following JSON format:\n");
    BraceFreeConcat("\n\nReturn the ", FormatName(f));
    BraceFreeConcat("\n\nReturn the " + FormatName(f), " in the following JSON format:\n");
  }

  lemma JsonShapeBraceFree(f: Format)
    ensures BraceFree(JsonShape(f))
  {
    assert BraceFree("  \"type\": \"") && BraceFree(FormatName(f)) && BraceFree("\"\n}");
    BraceFreeConcat("  \"type\": \"", FormatName(f));
    BraceFreeConcat("  \"type\": \"" + FormatName(f), "\"\n}");
  }

  lemma BraceFreeOpensNoLine(s: string)
    requires BraceFree(s)
    ensures BracesOpenLines(s)
  {
  }

  lemma TailBracesOpenLines(f: Format)
    ensures BracesOpenLines(Tail(f))
  {
    JsonRequestBraceFree(f);
    JsonShapeBraceFree(f);
    BraceFreeOpensNoLine(JsonRequest(f));
    BraceFreeOpensNoLine(JsonShape(f));
    assert BracesOpenLines("{\n");
    BracesOpenLinesConcat(JsonRequest(f), "{\n");
    BracesOpenLinesConcat(JsonRequest(f) + "{\n", JsonShape(f));
  }

  /** Values that `replace` inserts verbatim: no '{' to open a placeholder and no '$' to expand. */
  predicate ValuesPlain(v: Values)
  {
    Plain(v.subject) && Plain(v.topic) && Plain(v.difficulty) && Plain(v.instrument) && Plain(v.context)
  }

  /**
   * One `replace` step: a placeholder preceded by text without '{' is the one replaced, by the
   * value with its "$" patterns expanded; a value without '$' lands verbatim.
   */
  lemma FillStep(a: string, hole: string, b: string, value: string)
    requires BraceFree(a) && |hole| > 0 && hole[0] == '{'
    ensures ReplaceFirst(a + hole + b, hole, value) == a + Expand(value, hole, a, b) + b
    ensures '$' !in value ==> ReplaceFirst(a + hole + b, hole, value) == a + value + b
  {
    ReplaceFirstAfter(a, hole, b, value);
  }

  /** A labelled placeholder after brace-free text is filled in place. */
  lemma LabelledFill(a: string, line: string, hole: string, rest: string, value: string)
    requires BraceFree(a) && BraceFree(line) && |hole| > 0 && hole[0] == '{' && '$' !in value
    ensures ReplaceFirst(a + (line + hole + rest), hole, value) == a + (line + value + rest)
  {
    BraceFreeConcat(a, line);
    RegroupLine(a, line, hole, rest);
    FillStep(a + line, hole, rest, value);
    RegroupLine(a, line, value, rest);
  }

  /** The difficulty step, on details with any labels free of '{'. */
  lemma DifficultyStep(a: string, dl: string, rest: string, d: string)
    requires BraceFree(a) && BraceFree(dl) && '$' !in d
    ensures ReplaceFirst(a + (dl + DIFFICULTY_HOLE + rest), DIFFICULTY_HOLE, d) == a + (dl + d + rest)
  {
    LabelledFill(a, dl, DIFFICULTY_HOLE, rest, d);
  }

  /** The instrument step where the details have an instrument line. */
  lemma InstrumentStep(a: string, il: string, rest: string, i: string)
    requires BraceFree(a) && BraceFree(il) && '$' !in i
    ensures ReplaceFirst(a + (il + INSTRUMENT_HOLE + rest), INSTRUMENT_HOLE, i) == a + (il + i + rest)
  {
    LabelledFill(a, il, INSTRUMENT_HOLE, rest, i);
  }

  /** The instrument step where there is no instrument line: "{context}" is not "{instrument}", so nothing changes. */
  lemma NoInstrumentStep(a: string, cl: string, tail: string, i: string)
    requires BraceFree(a) && BraceFree(cl) && BracesOpenLines(tail)
    ensures ReplaceFirst(a + (cl + CONTEXT_HOLE + tail), INSTRUMENT_HOLE, i) == a + (cl + CONTEXT_HOLE + tail)
  {
    BraceFreeConcat(a, cl);
    assert a + (cl + CONTEXT_HOLE + tail) == a + cl + CONTEXT_HOLE + tail;
    AbsentAround(a + cl, CONTEXT_HOLE, tail, INSTRUMENT_HOLE);
  }

  /** The text from the difficulty line on. */
  function Details(dl: string, d: string, music: bool, il: string, i: string, cl: string, c: string, tail: string): string
  {
    dl + d + ((if music then il + i else "") + cl + c + tail)
  }

  lemma DetailsFlat(a: string, dl: string, d: string, il: string, i: string, cl: string, c: string, tail: string)
    ensures a + Details(dl, d, true, il, i, cl, c, tail) == a + dl + d + il + i + cl + c + tail
  {
    RegroupLine(il + i, cl, c, tail);
    RegroupLine(a, dl, d, il + i + cl + c + tail);
  }

  /** The difficulty and instrument steps on details with an instrument line. */
  lemma MusicHeadSteps(a: string, dl: string, il: string, cl: string, tail: string, v: Values)
    requires BraceFree(a) && BraceFree(dl) && BraceFree(il) && ValuesPlain(v)
    ensures var t := a + Details(dl, DIFFICULTY_HOLE, true, il, INSTRUMENT_HOLE, cl, CONTEXT_HOLE, tail);
      ReplaceFirst(ReplaceFirst(t, DIFFICULTY_HOLE, v.difficulty), INSTRUMENT_HOLE, v.instrument)
      == a + dl + v.difficulty + il + v.instrument + cl + CONTEXT_HOLE + tail
  {
    var r2 := cl + CONTEXT_HOLE + tail;
    var r1 := il + INSTRUMENT_HOLE + r2;
    var t := a + Details(dl, DIFFICULTY_HOLE, true, il, INSTRUMENT_HOLE, cl, CONTEXT_HOLE, tail);
    assert t == a + (dl + DIFFICULTY_HOLE + r1) by {
      RegroupLine(il + INSTRUMENT_HOLE, cl, CONTEXT_HOLE, tail);
    }
    DifficultyStep(a, dl, r1, v.difficulty);
    RegroupLine(a, dl, v.difficulty, r1);
    var a1 := a + dl + v.difficulty;
    assert BraceFree(a1) by {
      BraceFreeConcat(a, dl);
      BraceFreeConcat(a + dl, v.difficulty);
    }
    InstrumentStep(a1, il, r2, v.instrument);
    RegroupLine(a1, il, v.instrument, r2);
    RegroupLine(a1 + il + v.instrument, cl, CONTEXT_HOLE, tail);
  }

  lemma RegroupLine(x: string, y: string, p: string, q: string)
    ensures x + (y + p + q) == x + y + p + q
  {
  }

  /** The last three steps on details with an instrument line. */
  lemma MusicDetailsFill(a: string, dl: string, il: string, cl: string, tail: string, v: Values)
    requires BraceFree(a) && BraceFree(dl) && BraceFree(il) && BraceFree(cl) && BracesOpenLines(tail) && ValuesPlain(v)
    ensures var t := a + Details(dl, DIFFICULTY_HOLE, true, il, INSTRUMENT_HOLE, cl, CONTEXT_HOLE, tail);
      ReplaceFirst(ReplaceFirst(ReplaceFirst(t, DIFFICULTY_HOLE, v.difficulty), INSTRUMENT_HOLE, v.instrument), CONTEXT_HOLE, v.context)
      == a + Details(dl, v.difficulty, true, il, v.instrument, cl, v.context, tail)
  {
    MusicHeadSteps(a, dl, il, cl, tail, v);
    var a2 := a + dl + v.difficulty + il + v.instrument;
    assert BraceFree(a2 + cl) by {
      BraceFreeConcat(a, dl);
      BraceFreeConcat(a + dl, v.difficulty);
      BraceFreeConcat(a + dl + v.difficulty, il);
      BraceFreeConcat(a + dl + v.difficulty + il, v.instrument);
      BraceFreeConcat(a2, cl);
    }
    FillStep(a2 + cl, CONTEXT_HOLE, tail, v.context);
    DetailsFlat(a, dl, v.difficulty, il, v.instrument, cl, v.context, tail);
  }

  /** The last three steps on details without an instrument line. */
  lemma PlainDetailsFill(a: string, dl: string, il: string, cl: string, tail: string, v: Values)
    requires BraceFree(a) && BraceFree(dl) && BraceFree(il) && BraceFree(cl) && BracesOpenLines(tail) && ValuesPlain(v)
    ensures var t := a + Details(dl, DIFFICULTY_HOLE, false, il, INSTRUMENT_HOLE, cl, CONTEXT_HOLE, tail);
      ReplaceFirst(ReplaceFirst(ReplaceFirst(t, DIFFICULTY_HOLE, v.difficulty), INSTRUMENT_HOLE, v.instrument), CONTEXT_HOLE, v.context)
      == a + Details(dl, v.difficulty, false, il, v.instrument, cl, v.context, tail)
  {
    var r := cl + CONTEXT_HOLE + tail;
    var t := a + Details(dl, DIFFICULTY_HOLE, false, il, INSTRUMENT_HOLE, cl, CONTEXT_HOLE, tail);
    var a1 := a + dl + v.difficulty;
    assert t == a + (dl + DIFFICULTY_HOLE + r) by {
      assert Details(dl, DIFFICULTY_HOLE, false, il, INSTRUMENT_HOLE, cl, CONTEXT_HOLE, tail) == dl + DIFFICULTY_HOLE + r;
    }
    var t1 := ReplaceFirst(t, DIFFICULTY_HOLE, v.difficulty);
    assert t1 == a1 + r by {
      DifficultyStep(a, dl, r, v.difficulty);
      RegroupLine(a, dl, v.difficulty, r);
    }
    assert BraceFree(a1) by {
      BraceFreeConcat(a, dl);
      BraceFreeConcat(a + dl, v.difficulty);
    }
    var t2 := ReplaceFirst(t1, INSTRUMENT_HOLE, v.instrument);
    assert t2 == a1 + r by {
      NoInstrumentStep(a1, cl, tail, v.instrument);
    }
    assert ReplaceFirst(t2, CONTEXT_HOLE, v.context) == a1 + (cl + v.context + tail) by {
      LabelledFill(a1, cl, CONTEXT_HOLE, tail, v.context);
    }
    assert a + Details(dl, v.difficulty, false, il, v.instrument, cl, v.context, tail) == a1 + (cl + v.context + tail) by {
      assert Details(dl, v.difficulty, false, il, v.instrument, cl, v.context, tail) == dl + v.difficulty + (cl + v.context + tail);
      RegroupLine(a, dl, v.difficulty, cl + v.context + tail);
    }
  }

  /** The subject and topic steps. */
  lemma HeadFill(sl: string, tl: string, rest: string, s: string, t: string)
    requires BraceFree(sl) && BraceFree(tl) && BraceFree(s) && '$' !in s && '$' !in t
    ensures ReplaceFirst(ReplaceFirst(sl + SUBJECT_HOLE + tl + TOPIC_HOLE + rest, SUBJECT_HOLE, s), TOPIC_HOLE, t)
      == sl + s + tl + t + rest
  {
    var r := tl + TOPIC_HOLE + rest;
    var t1 := ReplaceFirst(sl + SUBJECT_HOLE + tl + TOPIC_HOLE + rest, SUBJECT_HOLE, s);
    assert t1 == sl + s + tl + TOPIC_HOLE + rest by {
      RegroupLine(sl, SUBJECT_HOLE, tl, TOPIC_HOLE + rest);
      assert sl + SUBJECT_HOLE + tl + TOPIC_HOLE + rest == sl + SUBJECT_HOLE + r;
      FillStep(sl, SUBJECT_HOLE, r, s);
      RegroupLine(sl + s, tl, TOPIC_HOLE, rest);
    }
    assert BraceFree(sl + s + tl) by {
      BraceFreeConcat(sl, s);
      BraceFreeConcat(sl + s, tl);
    }
    FillStep(sl + s + tl, TOPIC_HOLE, rest, t);
  }

  /**
   * With values free of '{' and '$', every placeholder of a template is filled with its value, each exactly
   * where the template has it; formats without an instrument line ignore the instrument.
   */
  lemma SubstituteFills(f: Format, v: Values)
    requires ValuesPlain(v)
    ensures Substitute(Template(f), v) == Filled(f, v)
  {
    LabelsBraceFree(f);
    TailBracesOpenLines(f);
    var music := f == Music;
    var holes := Details(DifficultyLabel(f), DIFFICULTY_HOLE, music, INSTRUMENT_LABEL, INSTRUMENT_HOLE, CONTEXT_LABEL, CONTEXT_HOLE, Tail(f));
    HeadFill(SubjectLabel(f), TOPIC_LABEL, holes, v.subject, v.topic);
    var a := SubjectLabel(f) + v.subject + TOPIC_LABEL + v.topic;
    BraceFreeConcat(SubjectLabel(f), v.subject);
    BraceFreeConcat(SubjectLabel(f) + v.subject, TOPIC_LABEL);
    BraceFreeConcat(SubjectLabel(f) + v.subject + TOPIC_LABEL, v.topic);
    if music {
      MusicDetailsFill(a, DifficultyLabel(f), INSTRUMENT_LABEL, CONTEXT_LABEL, Tail(f), v);
    } else {
      PlainDetailsFill(a, DifficultyLabel(f), INSTRUMENT_LABEL, CONTEXT_LABEL, Tail(f), v);
    }
  }

  /** Text that `replace` inserts verbatim: no '{' and no '$'. */
  predicate Plain(s: string)
  {
    BraceFree(s) && '$' !in s
  }

  lemma DifficultyNamePlain(d: Difficulty)
    ensures Plain(DifficultyName(d))
  {
    match d
    case Beginner => assert Plain("beginner");
    case Intermediate => assert Plain("intermediate");
    case Advanced => assert Plain("advanced");
  }

  lemma InstrumentNamePlain(i: Instrument)
    ensures Plain(InstrumentName(i))
  {
    match i
    case Piano => assert Plain("piano");
    case Guitar => assert Plain("guitar");
    case Violin => assert Plain("violin");
    case Flute => assert Plain("flute");
  }

  /** Fixed values (difficulty and instrument names, the "None" context) never hold '{' or '$'. */
  lemma ValuesOfPlain(req: Request)
    requires Plain(req.subject) && Plain(req.topic)
    requires req.additionalContext.Some? ==> Plain(req.additionalContext.value)
    ensures ValuesPlain(ValuesOf(req))
  {
    DifficultyNamePlain(req.difficulty);
    assert Plain("piano") && Plain("None");
    if req.instrument.Some? {
      InstrumentNamePlain(req.instrument.value);
    }
  }

  /**
   * For a request whose text holds no '{' and no '$', the prompt is the template with every detail
   * filled in verbatim. Text with '$' is expanded by `replace` (see `DollarsInSubjectCollapse`).
   */
  lemma PromptFillsDetails(req: Request)
    requires Plain(req.subject) && Plain(req.topic)
    requires req.additionalContext.Some? ==> Plain(req.additionalContext.value)
    ensures BuildPrompt(req) == Filled(req.format, ValuesOf(req))
    ensures req.additionalContext.None? ==> ValuesOf(req).context == "None"
    ensures req.instrument.None? ==> ValuesOf(req).instrument == "piano"
  {
    ValuesOfPlain(req);
    SubstituteFills(req.format, ValuesOf(req));
  }

  /**
   * Only the first occurrence is replaced: a subject that spells "{topic}" receives the topic, and
   * the template's own topic placeholder is left unfilled after the topic step.
   */
  lemma SubjectNamingTopicTakesIt(f: Format, topic: string)
    requires '$' !in topic
    ensures var afterSubject := ReplaceFirst(Template(f), SUBJECT_HOLE, TOPIC_HOLE);
      ReplaceFirst(afterSubject, TOPIC_HOLE, topic) == SubjectLabel(f) + topic + TOPIC_LABEL + TOPIC_HOLE + DetailHoles(f)
  {
    LabelsBraceFree(f);
    assert Template(f) == SubjectLabel(f) + SUBJECT_HOLE + TOPIC_LABEL + TOPIC_HOLE + DetailHoles(f);
    HijackSteps(SubjectLabel(f), TOPIC_LABEL, DetailHoles(f), topic);
  }

  lemma HijackSteps(sl: string, tl: string, rest: string, t: string)
    requires BraceFree(sl) && '$' !in t
    ensures ReplaceFirst(ReplaceFirst(sl + SUBJECT_HOLE + tl + TOPIC_HOLE + rest, SUBJECT_HOLE, TOPIC_HOLE), TOPIC_HOLE, t)
      == sl + t + tl + TOPIC_HOLE + rest
  {
    assert SUBJECT_HOLE[0] == '{' && TOPIC_HOLE[0] == '{';
    RefillSteps(sl, SUBJECT_HOLE, tl, TOPIC_HOLE, rest, t);
  }

  /** Filling a first placeholder with a second one, then that second one with a value. */
  lemma RefillSteps(sl: string, h1: string, tl: string, h2: string, rest: string, t: string)
    requires BraceFree(sl) && |h1| > 0 && h1[0] == '{' && |h2| > 0 && h2[0] == '{' && '$' !in h2 && '$' !in t
    ensures ReplaceFirst(ReplaceFirst(sl + h1 + tl + h2 + rest, h1, h2), h2, t) == sl + t + tl + h2 + rest
  {
    var tail := tl + h2 + rest;
    RegroupLine(sl + h1, tl, h2, rest);
    FillStep(sl, h1, tail, h2);
    FillStep(sl, h2, tail, t);
    RegroupLine(sl + t, tl, h2, rest);
  }

  /**
   * `replace` expands "$" patterns in the value: a subject holding "$$" reaches the prompt with
   * a single dollar sign there.
   */
  lemma DollarsInSubjectCollapse(f: Format, pre: string, post: string)
    requires '$' !in pre && '$' !in post
    ensures ReplaceFirst(Template(f), SUBJECT_HOLE, pre + "$$" + post)
      == SubjectLabel(f) + (pre + "$" + post) + (TOPIC_LABEL + TOPIC_HOLE + DetailHoles(f))
  {
    LabelsBraceFree(f);
    var rest := TOPIC_LABEL + TOPIC_HOLE + DetailHoles(f);
    assert Template(f) == SubjectLabel(f) + SUBJECT_HOLE + rest;
    FillStep(SubjectLabel(f), SUBJECT_HOLE, rest, pre + "$$" + post);
    ExpandEscapes(pre, post, SUBJECT_HOLE, SubjectLabel(f), rest);
  }

  /** A subject of "$&" writes the matched "{subject}" back, so the subject step leaves the template as it was. */
  lemma MatchedSubjectRestoresHole(f: Format)
    ensures ReplaceFirst(Template(f), SUBJECT_HOLE, "$&") == Template(f)
  {
    LabelsBraceFree(f);
    var rest := TOPIC_LABEL + TOPIC_HOLE + DetailHoles(f);
    assert Template(f) == SubjectLabel(f) + SUBJECT_HOLE + rest;
    FillStep(SubjectLabel(f), SUBJECT_HOLE, rest, "$&");
    ExpandEscapes("", "", SUBJECT_HOLE, SubjectLabel(f), rest);
  }

  // ----- the quota -----

  datatype Quota = Quota(allowed: bool, remaining: int, limit: int, tier: Option<string>)

  const FREE_MATERIALS: int := 3

  /**
   * `checkMaterialQuota`, given the user's most recent subscription of any status: refused
   * without one; unlimited for basic and premium; otherwise what is left of three.
   */
  function CheckMaterialQuota(latest: Option<SR.Subscription>): (q: Quota)
    ensures latest.None? ==> q == Quota(false, 0, 3, Some("freemium"))
    ensures latest.Some? && latest.value.tier in {Some("basic"), Some("premium")} ==> q == Quota(true, -1, -1, latest.value.tier)
    ensures latest.Some? && latest.value.tier !in {Some("basic"), Some("premium")} ==>
      (q.limit == 3 && q.remaining == Max(0, 3 - latest.value.aiMaterialsUsed) && (q.allowed <==> q.remaining > 0))
  {
    if latest.None? then Quota(false, 0, FREE_MATERIALS, Some("freemium"))
    else
      var tier := latest.value.tier;
      var limit := if tier == Some("basic") || tier == Some("premium") then -1 else FREE_MATERIALS;
      if limit == -1 then Quota(true, -1, -1, tier)
      else
        var remaining := Max(0, limit - latest.value.aiMaterialsUsed);
        Quota(remaining > 0, remaining, limit, tier)
  }

  /** Generation is allowed exactly with a basic or premium subscription, or another one with fewer than three used. */
  lemma QuotaAllowsIff(latest: Option<SR.Subscription>)
    ensures CheckMaterialQuota(latest).allowed <==>
      latest.Some? && (latest.value.tier in {Some("basic"), Some("premium")} || latest.value.aiMaterialsUsed < 3)
    ensures CheckMaterialQuota(latest).remaining >= -1
  {
  }

  /**
   * This quota and the subscription table disagree: a freemium subscriber with three or four
   * materials used is refused here but still within the table's limit of five.
   */
  lemma QuotaStricterThanTable(s: SR.Subscription)
    requires s.tier == Some("freemium") && s.status == SR.Active && 3 <= s.aiMaterialsUsed < 5
    ensures !CheckMaterialQuota(Some(s)).allowed
    ensures SR.CanUseAiMaterials(Some(s))
  {
  }

  function LimitMessage(q: Quota): string
  {
    "Material generation limit reached. You have " + IntToString(q.remaining) + "/" + IntToString(q.limit)
    + " remaining this month. Upgrade to Basic or Premium for unlimited generation."
  }

  // ----- generation -----

  /** What the model's reply parsed to: a music material with its ABC text, or another kind. */
  datatype ParsedMaterial = MusicMaterial(abcNotation: string) | OtherMaterial

  const APPROVED: string := "approved"

  /** The material row the insert writes, and the subscription's usage count after the increment. */
  datatype Generated = Generated(
    title: string,
    description: string,
    kind: Format,
    difficulty: Difficulty,
    qualityStatus: string,
    isPublic: bool,
    usedAfter: Option<int>)

  /** The saved material's title, "<subject>: <topic>". */
  function Title(req: Request): string
  {
    req.subject + ": " + req.topic
  }

  /** The saved material's description, "<format> for <difficulty> level". */
  function Description(req: Request): string
  {
    FormatName(req.format) + " for " + DifficultyName(req.difficulty) + " level"
  }

  /**
   * The material row written on success: titled "<subject>: <topic>", described as "<format> for
   * <difficulty> level", of the request's format and difficulty, approved unless a music request
   * came back as music, whose status the quality gate decides; the latest subscription's usage
   * count goes up by one.
   */
  function Saved(req: Request, parsed: ParsedMaterial, gateStatus: string, latest: Option<SR.Subscription>): (g: Generated)
    ensures g.title == req.subject + ": " + req.topic
    ensures g.description == FormatName(req.format) + " for " + DifficultyName(req.difficulty) + " level"
    ensures g.kind == req.format && g.difficulty == req.difficulty && g.isPublic == req.isPublic
    ensures g.qualityStatus != APPROVED ==> req.format == Music && parsed.MusicMaterial? && g.qualityStatus == gateStatus
    ensures req.format != Music || parsed.OtherMaterial? ==> g.qualityStatus == APPROVED
    ensures g.usedAfter.Some? <==> latest.Some?
    ensures latest.Some? ==> g.usedAfter.value == latest.value.aiMaterialsUsed + 1
  {
    var qualityStatus := if req.format == Music && parsed.MusicMaterial? then gateStatus else APPROVED;
    Generated(Title(req), Description(req), req.format, req.difficulty,
              qualityStatus, req.isPublic, if latest.Some? then Some(latest.value.aiMaterialsUsed + 1) else None)
  }

  /** Why a generation was refused; `Message` gives the error text thrown for each. */
  datatype GenError =
    | InvalidRequest
    | UserMissing(clerkId: string)
    | LimitReached(quota: Quota)
    | NoContent
    | Unparsable(detail: string)
    | InvalidAbc(detail: string)

  function Message(e: GenError): string
  {
    match e
    case InvalidRequest => INVALID_REQUEST
    case UserMissing(clerkId) => "User " + clerkId + " not found in database. Please ensure Clerk webhooks are properly configured."
    case LimitReached(q) => LimitMessage(q)
    case NoContent => "Failed to generate material: No content in API response"
    case Unparsable(detail) => "Failed to parse AI response: " + detail
    case InvalidAbc(detail) => "Generated ABC notation is invalid: " + detail
  }

  datatype Outcome = Done(material: Generated) | Failed(error: GenError)

  /** `if (validationError)`: the validator's message rejects the ABC text unless it is absent or empty. */
  predicate AbcRejected(abcError: Option<string>)
  {
    abcError.Some? && abcError.value != ""
  }

  /**
   * `generateMaterial`, its outside calls given as parameters: `userId` is the internal user found
   * for the request's user, `latest` that user's most recent subscription, `reply` the model's
   * reply text, `parsed` what parsing it gave, `abcError` the ABC validator's verdict and
   * `gateStatus` the quality gate's status for the ABC text.
   */
  method GenerateMaterial(raw: RawRequest, userId: Option<string>, latest: Option<SR.Subscription>,
                          reply: Option<string>, parsed: Result<ParsedMaterial>,
                          abcError: Option<string>, gateStatus: string) returns (r: Outcome)
    ensures Validate(raw).Err? ==> r == Failed(InvalidRequest)
    ensures Validate(raw).Ok? && userId.None? ==> r == Failed(UserMissing(raw.userId))
    ensures Validate(raw).Ok? && userId.Some? && !CheckMaterialQuota(latest).allowed ==>
      r == Failed(LimitReached(CheckMaterialQuota(latest)))
    ensures r.Failed? && r.error.NoContent? <==> (Validate(raw).Ok? && userId.Some? && CheckMaterialQuota(latest).allowed
      && (reply.None? || reply.value == ""))
    ensures r.Failed? && r.error.Unparsable? <==> (Validate(raw).Ok? && userId.Some? && CheckMaterialQuota(latest).allowed
      && reply.Some? && reply.value != "" && parsed.Err?)
    ensures r.Failed? && r.error.InvalidAbc? <==> (Validate(raw).Ok? && userId.Some? && CheckMaterialQuota(latest).allowed
      && reply.Some? && reply.value != "" && parsed.Ok?
      && Validate(raw).value.format == Music && parsed.value.MusicMaterial? && AbcRejected(abcError))
    ensures r.Done? <==> (Validate(raw).Ok? && userId.Some? && CheckMaterialQuota(latest).allowed
      && reply.Some? && reply.value != "" && parsed.Ok?
      && !(Validate(raw).value.format == Music && parsed.value.MusicMaterial? && AbcRejected(abcError)))
    ensures r.Done? ==> r.material == Saved(Validate(raw).value, parsed.value, gateStatus, latest)
  {
    var validated := Validate(raw);
    if validated.Err? {
      return Failed(InvalidRequest);
    }
    var req := validated.value;
    if userId.None? {
      return Failed(UserMissing(raw.userId));
    }
    var quota := CheckMaterialQuota(latest);
    if !quota.allowed {
      return Failed(LimitReached(quota));
    }
    if reply.None? || reply.value == "" {
      return Failed(NoContent);
    }
    if parsed.Err? {
      return Failed(Unparsable(parsed.error));
    }
    if req.format == Music && parsed.value.MusicMaterial? && AbcRejected(abcError) {
      return Failed(InvalidAbc(abcError.value));
    }
    r := Done(Saved(req, parsed.value, gateStatus, latest));
  }
}
