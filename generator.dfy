/**
 * generator/generator.py: the source excerpt placed in every prompt, the
 * four payload parsers that coerce the model's JSON into the records of
 * generator/models.py, and the four `generate_*` wrappers that fall back to
 * an empty artifact whenever the model call or the parse raises.
 *
 * The model call (`_call_json_response`, including the missing-key error
 * raised by `get_client()`) is the parameter `llm`: given the system and
 * user prompts it yields the decoded payload, or the exception it raised.
 */
module Generator {
  import opened Wrappers
  import opened PyText
  import opened Json
  import opened TextWrap
  import opened GeneratorModels
  import opened Survivors

  type Llm = (string, string) -> Result<Json>

  const NoSourceText := "[No source text available.]"
  const ExcerptLimit: nat := 6000
  const Truncated := "... [truncated]"

  // ---------------------------------------------------------------------
  // Source excerpt
  // ---------------------------------------------------------------------

  /** `_format_source_excerpt(full_text)`: empty text gets a notice, other text is shortened. */
  function FormatSourceExcerpt(fullText: string): string
  {
    if fullText == [] then NoSourceText else Shorten(fullText, ExcerptLimit, Truncated)
  }

  lemma ExcerptOfEmpty()
    ensures FormatSourceExcerpt("") == "[No source text available.]"
  {
  }

  /** Non-empty text never exceeds the limit, and text whose collapsed form fits is that collapsed form. */
  lemma ExcerptFits(fullText: string)
    requires fullText != []
    ensures |FormatSourceExcerpt(fullText)| <= 6000
    ensures |Collapse(fullText)| <= 6000 ==> FormatSourceExcerpt(fullText) == Collapse(fullText)
  {
    ShortenFits(fullText, ExcerptLimit, Truncated);
  }

  /**
   * Text whose collapsed form is too long becomes a run of leading words
   * followed by the placeholder (the placeholder alone when no word fits
   * beside it).
   */
  lemma {:induction false} ExcerptTruncated(fullText: string)
    requires |Collapse(fullText)| > 6000
    ensures Kept(fullText, ExcerptLimit, Truncated) < |Words(fullText)|
    ensures FormatSourceExcerpt(fullText) ==
      Join(Words(fullText)[..Kept(fullText, ExcerptLimit, Truncated)], " ") + "... [truncated]"
  {
    assert fullText != [];
    var k := Kept(fullText, ExcerptLimit, Truncated);
    ShortenTruncates(fullText, ExcerptLimit, Truncated);
    if k == 0 {
      assert Words(fullText)[..k] == [];
      assert LStrip(Truncated) == Truncated by {
        assert !IsSpace(Truncated[0]);
      }
    }
  }

  /** The words kept are the longest leading run that fits beside the placeholder. */
  lemma {:induction false} ExcerptKeepsLongestFit(fullText: string)
    requires |Collapse(fullText)| > 6000
    ensures var k := Kept(fullText, ExcerptLimit, Truncated);
      && k < |Words(fullText)|
      && |Join(Words(fullText)[..k], " ")| + |Truncated| <= 6000
      && |Join(Words(fullText)[..k + 1], " ")| + |Truncated| > 6000
  {
    KeptIsLongestFit(fullText, ExcerptLimit, Truncated);
  }

  /** Whitespace-only text is not empty, so it gets no notice: its excerpt is the empty string. */
  lemma ExcerptOfBlank(fullText: string)
    requires fullText != [] && AllSpace(fullText)
    ensures FormatSourceExcerpt(fullText) == ""
  {
    ShortenBlank(fullText, ExcerptLimit, Truncated);
  }

  // ---------------------------------------------------------------------
  // Per-item construction (the body of each `try`)
  // ---------------------------------------------------------------------

  /** `list(item.get(key, []) or [])`: a falsy value gives `[]`; a truthy one must be iterable. */
  function ListField(item: Json, key: string): (r: Result<Json>)
    requires item.Obj?
    ensures r.Ok? ==> r.value.Arr?
    ensures r.Ok? <==> !Truthy(Get(item, key, Arr([])).value) || PyList(Get(item, key, Arr([])).value).Ok?
  {
    var v := Get(item, key, Arr([])).value;
    if !Truthy(v) then Ok(Arr([]))
    else match PyList(v)
      case Ok(xs) => Ok(Arr(xs))
      case Err(e) => Err(e)
  }

  /** `str(item.get(key, default))` */
  function StrField(item: Json, key: string, default: string): Json
    requires item.Obj?
  {
    Str(PyStr(Get(item, key, Str(default)).value))
  }

  /** `item.get(key)`, `None` when absent. */
  function RawField(item: Json, key: string): Json
    requires item.Obj?
  {
    Get(item, key).value
  }

  function BuildOutlineSection(item: Json): (r: Result<OutlineSection>)
    ensures r.Ok? <==> item.Obj? && ListField(item, "objectives").Ok? && ListField(item, "subtopics").Ok?
    ensures r.Ok? ==> r.value.title.Str? && r.value.objectives.Arr? && r.value.subtopics.Arr?
  {
    if !item.Obj? then Err("AttributeError: object has no attribute 'get'")
    else
      var title := StrField(item, "title", "Untitled Section");
      var objectives := ListField(item, "objectives");
      var duration := RawField(item, "duration_minutes");
      var subtopics := ListField(item, "subtopics");
      if objectives.Err? then Err(objectives.error)
      else if subtopics.Err? then Err(subtopics.error)
      else Ok(OutlineSection(title, objectives.value, duration, subtopics.value))
  }

  function BuildInstructorSection(item: Json): (r: Result<InstructorSection>)
    ensures r.Ok? <==> && item.Obj? && ListField(item, "learning_objectives").Ok?
                       && ListField(item, "talking_points").Ok? && ListField(item, "suggested_activities").Ok?
    ensures r.Ok? ==> && r.value.title.Str? && r.value.learningObjectives.Arr?
                      && r.value.talkingPoints.Arr? && r.value.suggestedActivities.Arr?
  {
    if !item.Obj? then Err("AttributeError: object has no attribute 'get'")
    else
      var title := StrField(item, "title", "Untitled Section");
      var objectives := ListField(item, "learning_objectives");
      var points := ListField(item, "talking_points");
      var activities := ListField(item, "suggested_activities");
      var minutes := RawField(item, "estimated_time_minutes");
      if objectives.Err? then Err(objectives.error)
      else if points.Err? then Err(points.error)
      else if activities.Err? then Err(activities.error)
      else Ok(InstructorSection(title, objectives.value, points.value, activities.value, minutes))
  }

  function BuildVideoSegment(item: Json): (r: Result<VideoSegment>)
    ensures r.Ok? <==> item.Obj?
    ensures r.Ok? ==> r.value.title.Str? && r.value.narration.Str? && r.value.screenDirections.Str?
  {
    if !item.Obj? then Err("AttributeError: object has no attribute 'get'")
    else Ok(VideoSegment(
      StrField(item, "title", "Untitled Segment"),
      StrField(item, "narration", ""),
      StrField(item, "screen_directions", ""),
      RawField(item, "approx_duration_seconds")))
  }

  /**
   * One quick-reference step, built while `count` steps have been kept so far:
   * an absent `step_number` defaults to `count + 1`, and whatever is there
   * must pass `int()`.
   */
  function BuildStep(item: Json, count: nat): (r: Result<QuickRefStep>)
    ensures r.Ok? <==> item.Obj? && PyInt(Get(item, "step_number", Int(count + 1)).value).Ok?
    ensures r.Ok? ==> && r.value.stepNumber.Int? && r.value.title.Str? && r.value.action.Str?
  {
    if !item.Obj? then Err("AttributeError: object has no attribute 'get'")
    else match PyInt(Get(item, "step_number", Int(count + 1)).value)
      case Err(e) => Err(e)
      case Ok(n) => Ok(QuickRefStep(Int(n), StrField(item, "title", "Step"), StrField(item, "action", ""), RawField(item, "notes")))
  }

  /** The steps kept from `items`: each item sees how many earlier ones were kept. */
  function ParsedSteps(items: seq<Json>): (r: seq<QuickRefStep>)
    ensures |r| <= |items|
  {
    CollectCounting(items, BuildStep)
  }

  // ---------------------------------------------------------------------
  // The parsers as specification functions
  // ---------------------------------------------------------------------

  /** `payload.get(key, []) if isinstance(payload, dict) else []` */
  function ListOf(payload: Json, key: string): Json
  {
    if payload.Obj? then Get(payload, key, Arr([])).value else Arr([])
  }

  function FallbackTitle(courseTitle: string, classType: string): string
  {
    courseTitle + " (" + classType + ")"
  }

  /** `_parse_outline`: `Err` when the `for` statement itself raises (a non-iterable `sections`). */
  function OutlineOf(payload: Json, courseTitle: string, classType: string): Result<ClassOutline>
  {
    match PyList(ListOf(payload, "sections"))
    case Err(e) => Err(e)
    case Ok(items) =>
      var title := if payload.Obj? then Get(payload, "title").value else Null;
      Ok(ClassOutline(if Truthy(title) then title else Str(FallbackTitle(courseTitle, classType)),
                      Collect(items, BuildOutlineSection)))
  }

  function GuideOf(payload: Json): Result<InstructorGuide>
  {
    match PyList(ListOf(payload, "sections"))
    case Err(e) => Err(e)
    case Ok(items) => Ok(InstructorGuide(Collect(items, BuildInstructorSection)))
  }

  function ScriptOf(payload: Json): Result<VideoScript>
  {
    match PyList(ListOf(payload, "segments"))
    case Err(e) => Err(e)
    case Ok(items) => Ok(VideoScript(Collect(items, BuildVideoSegment)))
  }

  function QuickReferenceOf(payload: Json): Result<QuickReferenceGuide>
  {
    match PyList(ListOf(payload, "steps"))
    case Err(e) => Err(e)
    case Ok(items) => Ok(QuickReferenceGuide(ParsedSteps(items)))
  }

  // ---------------------------------------------------------------------
  // The parsers as written: append loops with a `try` per item
  // ---------------------------------------------------------------------

  method ParseOutline(payload: Json, courseTitle: string, classType: string) returns (r: Result<ClassOutline>)
    ensures r == OutlineOf(payload, courseTitle, classType)
  {
    var data := PyList(ListOf(payload, "sections"));
    if data.Err? {
      return Err(data.error);
    }
    var items := data.value;
    var sections := KeepSurvivors(items, BuildOutlineSection);
    var title := if payload.Obj? then Get(payload, "title").value else Null;
    r := Ok(ClassOutline(if Truthy(title) then title else Str(FallbackTitle(courseTitle, classType)), sections));
  }

  method ParseInstructorGuide(payload: Json) returns (r: Result<InstructorGuide>)
    ensures r == GuideOf(payload)
  {
    var data := PyList(ListOf(payload, "sections"));
    if data.Err? {
      return Err(data.error);
    }
    var items := data.value;
    var sections := KeepSurvivors(items, BuildInstructorSection);
    r := Ok(InstructorGuide(sections));
  }

  method ParseVideoScript(payload: Json) returns (r: Result<VideoScript>)
    ensures r == ScriptOf(payload)
  {
    var data := PyList(ListOf(payload, "segments"));
    if data.Err? {
      return Err(data.error);
    }
    var items := data.value;
    var segments := KeepSurvivors(items, BuildVideoSegment);
    r := Ok(VideoScript(segments));
  }

  method ParseQuickReference(payload: Json) returns (r: Result<QuickReferenceGuide>)
    ensures r == QuickReferenceOf(payload)
  {
    var data := PyList(ListOf(payload, "steps"));
    if data.Err? {
      return Err(data.error);
    }
    var items := data.value;
    var steps := KeepCounted(items, BuildStep);
    r := Ok(QuickReferenceGuide(steps));
  }

  // ---------------------------------------------------------------------
  // The `generate_*` wrappers
  // ---------------------------------------------------------------------

  const OutlineSystemPrompt := "You are an instructional designer who produces clear, structured, actionable class outlines. Always reply with JSON only."
  const GuideSystemPrompt := "You create detailed instructor guides that include learning objectives, talking points, activities, and time estimates. Always reply with JSON only."
  const ScriptSystemPrompt := "You write high-quality training video scripts with narration and precise screen directions. Always reply with JSON only."
  const QuickRefSystemPrompt := "You create concise, numbered quick reference guides (QRGs) with clear action steps. Always reply with JSON only."

  function OutlinePrompt(fullText: string, courseTitle: string, classType: string): string
  {
    "Create a ClassOutline JSON object for the course '" + courseTitle + "' (" + classType + ").\n"
    + "Use the following source text as guidance:\n" + FormatSourceExcerpt(fullText) + "\n\n"
    + "Schema: {title: str, sections: [ {title, objectives: list[str], duration_minutes: int|null, subtopics: list[str]} ]}"
  }

  function GuidePrompt(fullText: string, courseTitle: string, classType: string): string
  {
    "Produce an InstructorGuide JSON for '" + courseTitle + "' (" + classType + ").\n"
    + "Use this source text:\n" + FormatSourceExcerpt(fullText) + "\n\n"
    + "Schema: {sections: [ {title, learning_objectives, talking_points, suggested_activities, estimated_time_minutes} ]}"
  }

  function ScriptPrompt(fullText: string, courseTitle: string, classType: string): string
  {
    "Draft a VideoScript JSON for '" + courseTitle + "' (" + classType + ").\n"
    + "Use this source text for context:\n" + FormatSourceExcerpt(fullText) + "\n\n"
    + "Schema: {segments: [ {title, narration, screen_directions, approx_duration_seconds} ]}"
  }

  function QuickRefPrompt(fullText: string, courseTitle: string, classType: string): string
  {
    "Produce a QuickReferenceGuide JSON for '" + courseTitle + "' (" + classType + ").\n"
    + "Use this source text:\n" + FormatSourceExcerpt(fullText) + "\n\n"
    + "Schema: {steps: [ {step_number, title, action, notes} ]}"
  }

  function OutlineFallback(courseTitle: string, classType: string): ClassOutline
  {
    ClassOutline(Str(FallbackTitle(courseTitle, classType)), [])
  }

  /*
   * Each `generate_*` is `try: payload = _call_json_response(...); return
   * _parse_*(payload) except Exception: ...` followed by its canned
   * artifact.  The `...FromReply` functions are that block given the reply
   * of the model call; `Generate...` supplies the reply for its prompts.
   */

  function OutlineFromReply(reply: Result<Json>, courseTitle: string, classType: string): ClassOutline
  {
    match reply
    case Err(_) => OutlineFallback(courseTitle, classType)
    case Ok(payload) =>
      match OutlineOf(payload, courseTitle, classType)
      case Ok(outline) => outline
      case Err(_) => OutlineFallback(courseTitle, classType)
  }

  function GenerateClassOutline(llm: Llm, fullText: string, courseTitle: string, classType: string): ClassOutline
  {
    OutlineFromReply(llm(OutlineSystemPrompt, OutlinePrompt(fullText, courseTitle, classType)), courseTitle, classType)
  }

  function GuideFromReply(reply: Result<Json>): InstructorGuide
  {
    match reply
    case Err(_) => InstructorGuide([])
    case Ok(payload) =>
      match GuideOf(payload)
      case Ok(guide) => guide
      case Err(_) => InstructorGuide([])
  }

  function GenerateInstructorGuide(llm: Llm, fullText: string, courseTitle: string, classType: string): InstructorGuide
  {
    GuideFromReply(llm(GuideSystemPrompt, GuidePrompt(fullText, courseTitle, classType)))
  }

  function ScriptFromReply(reply: Result<Json>): VideoScript
  {
    match reply
    case Err(_) => VideoScript([])
    case Ok(payload) =>
      match ScriptOf(payload)
      case Ok(script) => script
      case Err(_) => VideoScript([])
  }

  function GenerateVideoScript(llm: Llm, fullText: string, courseTitle: string, classType: string): VideoScript
  {
    ScriptFromReply(llm(ScriptSystemPrompt, ScriptPrompt(fullText, courseTitle, classType)))
  }

  function QuickRefFromReply(reply: Result<Json>): QuickReferenceGuide
  {
    match reply
    case Err(_) => QuickReferenceGuide([])
    case Ok(payload) =>
      match QuickReferenceOf(payload)
      case Ok(guide) => guide
      case Err(_) => QuickReferenceGuide([])
  }

  function GenerateQuickReference(llm: Llm, fullText: string, courseTitle: string, classType: string): QuickReferenceGuide
  {
    QuickRefFromReply(llm(QuickRefSystemPrompt, QuickRefPrompt(fullText, courseTitle, classType)))
  }
}
