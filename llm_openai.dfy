/**
 * generator/llm_openai.py (lines 1-199): the same excerpt and parsers as
 * generator/generator.py with the coercions taken out.  There is no dict
 * guard on the payload, titles and texts are stored as they come (no
 * `str()`), list fields only get `or []` (no `list()` copy), and
 * `step_number` is read verbatim.  An item is dropped only when it is not a
 * dict, because only `.get` can raise.
 */
module LlmOpenAi {
  import opened Wrappers
  import opened Json
  import opened TextWrap
  import opened GeneratorModels
  import opened Survivors

  const NoSourceText := "[No source text supplied; rely on general instructional design best practices.]"

  /** `_format_source_excerpt(full_text)` */
  function FormatSourceExcerpt(fullText: string): (r: string)
    ensures fullText == [] ==> r == "[No source text supplied; rely on general instructional design best practices.]"
    ensures fullText != [] ==> r == Shorten(fullText, 6000, "... [truncated]") && |r| <= 6000
  {
    if fullText == [] then NoSourceText
    else
      ShortenFits(fullText, 6000, "... [truncated]");
      Shorten(fullText, 6000, "... [truncated]")
  }

  /** `item.get(key, []) or []` */
  function OrEmpty(v: Json): (r: Json)
    ensures Truthy(v) ==> r == v
    ensures !Truthy(v) ==> r == Arr([])
  {
    if Truthy(v) then v else Arr([])
  }

  function BuildOutlineSection(item: Json): (r: Result<OutlineSection>)
    ensures r.Ok? <==> item.Obj?
  {
    if !item.Obj? then Err("AttributeError: object has no attribute 'get'")
    else Ok(OutlineSection(
      Get(item, "title", Str("Untitled Section")).value,
      OrEmpty(Get(item, "objectives", Arr([])).value),
      Get(item, "duration_minutes").value,
      OrEmpty(Get(item, "subtopics", Arr([])).value)))
  }

  function BuildInstructorSection(item: Json): (r: Result<InstructorSection>)
    ensures r.Ok? <==> item.Obj?
  {
    if !item.Obj? then Err("AttributeError: object has no attribute 'get'")
    else Ok(InstructorSection(
      Get(item, "title", Str("Untitled Section")).value,
      OrEmpty(Get(item, "learning_objectives", Arr([])).value),
      OrEmpty(Get(item, "talking_points", Arr([])).value),
      OrEmpty(Get(item, "suggested_activities", Arr([])).value),
      Get(item, "estimated_time_minutes").value))
  }

  function BuildVideoSegment(item: Json): (r: Result<VideoSegment>)
    ensures r.Ok? <==> item.Obj?
  {
    if !item.Obj? then Err("AttributeError: object has no attribute 'get'")
    else Ok(VideoSegment(
      Get(item, "title", Str("Untitled Segment")).value,
      Get(item, "narration", Str("")).value,
      Get(item, "screen_directions", Str("")).value,
      Get(item, "approx_duration_seconds").value))
  }

  function BuildStep(item: Json): (r: Result<QuickRefStep>)
    ensures r.Ok? <==> item.Obj?
  {
    if !item.Obj? then Err("AttributeError: object has no attribute 'get'")
    else Ok(QuickRefStep(
      Get(item, "step_number").value,
      Get(item, "title", Str("Step")).value,
      Get(item, "action", Str("")).value,
      Get(item, "notes").value))
  }

  /** The item list named `key`: raises on a non-dict payload and on a non-iterable value. */
  function ItemsOf(payload: Json, key: string): Result<seq<Json>>
  {
    match Get(payload, key, Arr([]))
    case Err(e) => Err(e)
    case Ok(data) => PyList(data)
  }

  function OutlineOf(payload: Json, courseTitle: string, classType: string): Result<ClassOutline>
  {
    match ItemsOf(payload, "sections")
    case Err(e) => Err(e)
    case Ok(items) =>
      var title := Get(payload, "title").value;
      Ok(ClassOutline(if Truthy(title) then title else Str(courseTitle + " (" + classType + ")"),
                      Collect(items, BuildOutlineSection)))
  }

  function GuideOf(payload: Json): Result<InstructorGuide>
  {
    match ItemsOf(payload, "sections")
    case Err(e) => Err(e)
    case Ok(items) => Ok(InstructorGuide(Collect(items, BuildInstructorSection)))
  }

  function ScriptOf(payload: Json): Result<VideoScript>
  {
    match ItemsOf(payload, "segments")
    case Err(e) => Err(e)
    case Ok(items) => Ok(VideoScript(Collect(items, BuildVideoSegment)))
  }

  function QuickReferenceOf(payload: Json): Result<QuickReferenceGuide>
  {
    match ItemsOf(payload, "steps")
    case Err(e) => Err(e)
    case Ok(items) => Ok(QuickReferenceGuide(Collect(items, BuildStep)))
  }

  method ParseOutline(payload: Json, courseTitle: string, classType: string) returns (r: Result<ClassOutline>)
    ensures r == OutlineOf(payload, courseTitle, classType)
  {
    var data := ItemsOf(payload, "sections");
    if data.Err? {
      return Err(data.error);
    }
    var items := data.value;
    var sections: seq<OutlineSection> := [];
    var i := 0;
    while i < |items|
      invariant 0 <= i <= |items|
      invariant sections == Collect(items[..i], BuildOutlineSection)
    {
      assert items[..i + 1][..i] == items[..i];
      var built := BuildOutlineSection(items[i]);
      if built.Ok? {
        sections := sections + [built.value];
      }
      i := i + 1;
    }
    assert items[..i] == items;
    var title := Get(payload, "title").value;
    r := Ok(ClassOutline(if Truthy(title) then title else Str(courseTitle + " (" + classType + ")"), sections));
  }

  method ParseInstructorGuide(payload: Json) returns (r: Result<InstructorGuide>)
    ensures r == GuideOf(payload)
  {
    var data := ItemsOf(payload, "sections");
    if data.Err? {
      return Err(data.error);
    }
    var items := data.value;
    var sections: seq<InstructorSection> := [];
    var i := 0;
    while i < |items|
      invariant 0 <= i <= |items|
      invariant sections == Collect(items[..i], BuildInstructorSection)
    {
      assert items[..i + 1][..i] == items[..i];
      var built := BuildInstructorSection(items[i]);
      if built.Ok? {
        sections := sections + [built.value];
      }
      i := i + 1;
    }
    assert items[..i] == items;
    r := Ok(InstructorGuide(sections));
  }

  method ParseVideoScript(payload: Json) returns (r: Result<VideoScript>)
    ensures r == ScriptOf(payload)
  {
    var data := ItemsOf(payload, "segments");
    if data.Err? {
      return Err(data.error);
    }
    var items := data.value;
    var segments: seq<VideoSegment> := [];
    var i := 0;
    while i < |items|
      invariant 0 <= i <= |items|
      invariant segments == Collect(items[..i], BuildVideoSegment)
    {
      assert items[..i + 1][..i] == items[..i];
      var built := BuildVideoSegment(items[i]);
      if built.Ok? {
        segments := segments + [built.value];
      }
      i := i + 1;
    }
    assert items[..i] == items;
    r := Ok(VideoScript(segments));
  }

  method ParseQuickReference(payload: Json) returns (r: Result<QuickReferenceGuide>)
    ensures r == QuickReferenceOf(payload)
  {
    var data := ItemsOf(payload, "steps");
    if data.Err? {
      return Err(data.error);
    }
    var items := data.value;
    var steps: seq<QuickRefStep> := [];
    var i := 0;
    while i < |items|
      invariant 0 <= i <= |items|
      invariant steps == Collect(items[..i], BuildStep)
    {
      assert items[..i + 1][..i] == items[..i];
      var built := BuildStep(items[i]);
      if built.Ok? {
        steps := steps + [built.value];
      }
      i := i + 1;
    }
    assert items[..i] == items;
    r := Ok(QuickReferenceGuide(steps));
  }
}
