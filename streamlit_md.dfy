/**
 * streamlit_app.py, lines 18-81: the same four renderers as
 * backend/services/formatting.py, written over the dicts the backend's JSON
 * response decodes to.  Every key is read with `.get` and a default, so a
 * missing key never raises; a value of the wrong kind can (`.get` on an
 * item that is no dict, `for` over a value that is not iterable, `join` over
 * a line that is no string), and the renderers return that error.
 */
module StreamlitMarkdown {
  import opened Wrappers
  import opened PyText
  import opened Json
  import opened Lines
  import BackendTypes
  import Formatting

  // ---------------------------------------------------------------------
  // Loops that can raise
  // ---------------------------------------------------------------------

  /** Running one more block after `done`: an earlier error stands, otherwise the block's error or its lines. */
  function Then<U>(done: Result<seq<U>>, block: Result<seq<U>>): (r: Result<seq<U>>)
    ensures r.Ok? <==> done.Ok? && block.Ok?
    ensures done.Err? ==> r == done
  {
    if done.Err? then done else if block.Err? then block else Ok(done.value + block.value)
  }

  /** The blocks `f(x)` of the items, one after another, stopping at the first item whose block raises. */
  function FlatMapR<T, U>(xs: seq<T>, f: T -> Result<seq<U>>): (r: Result<seq<U>>)
    ensures r.Ok? <==> forall k :: 0 <= k < |xs| ==> f(xs[k]).Ok?
  {
    if xs == [] then Ok([]) else Then(FlatMapR(xs[..|xs| - 1], f), f(xs[|xs| - 1]))
  }

  lemma FlatMapRSnoc<T, U>(xs: seq<T>, i: nat, f: T -> Result<seq<U>>)
    requires i < |xs|
    ensures FlatMapR(xs[..i + 1], f) == Then(FlatMapR(xs[..i], f), f(xs[i]))
  {
    assert xs[..i + 1][..i] == xs[..i];
  }

  /** Once an item has raised, the loop's outcome is that error, whatever follows. */
  lemma {:induction false} FlatMapRErrStands<T, U>(xs: seq<T>, i: nat, f: T -> Result<seq<U>>)
    requires i <= |xs| && FlatMapR(xs[..i], f).Err?
    ensures FlatMapR(xs, f) == FlatMapR(xs[..i], f)
    decreases |xs| - i
  {
    if i < |xs| {
      FlatMapRSnoc(xs, i, f);
      FlatMapRErrStands(xs, i + 1, f);
    } else {
      assert xs[..i] == xs;
    }
  }

  /** `for x in j:` with the block `f(x)` per item; a `j` that is not iterable raises. */
  function ForEach<U>(j: Json, f: Json -> Result<seq<U>>): (r: Result<seq<U>>)
    ensures j.Arr? ==> r == FlatMapR(j.items, f)
  {
    match PyList(j)
    case Err(e) => Err(e)
    case Ok(xs) => FlatMapR(xs, f)
  }

  /** `d.get(key, default)` on a dict. */
  function Field(d: Json, key: string, default: Json := Null): Json
    requires d.Obj?
  {
    Get(d, key, default).value
  }

  /** `value or alt` */
  function Or(value: Json, alt: Json): (r: Json)
    ensures Truthy(r) <==> Truthy(value) || Truthy(alt)
  {
    if Truthy(value) then value else alt
  }

  /** `if entries: lines.append(f"**{caption}**"); lines.extend([f"- {e}" for e in entries])` */
  function Labelled(caption: string, entries: Json): (r: Result<seq<string>>)
    ensures !Truthy(entries) ==> r == Ok([])
    ensures entries.Arr? && entries.items != [] ==> r == Ok(["**" + caption + "**"] + Bullets("- ", entries.items))
  {
    if !Truthy(entries) then Ok([])
    else match PyList(entries)
      case Err(e) => Err(e)
      case Ok(xs) => Ok(["**" + caption + "**"] + Bullets("- ", xs))
  }

  // ---------------------------------------------------------------------
  // The renderers, as functions of the dicts
  // ---------------------------------------------------------------------

  /** One outline section's lines. */
  function OutlineSectionLines(section: Json): Result<seq<string>>
  {
    match Get(section, "title", Str("Section"))
    case Err(e) => Err(e)
    case Ok(title) =>
      var duration := Field(section, "durationMinutes");
      Then(Then(Ok(["## " + PyStr(title)]), Labelled("Objectives", Or(Field(section, "objectives", Arr([])), Arr([])))),
           Ok(if Truthy(duration) then ["_Duration: " + PyStr(duration) + " minutes_"] else []))
  }

  function OutlineMd(outline: Json): Result<string>
  {
    if !outline.Obj? then Err("AttributeError: object has no attribute 'get'") else
    var head := ["# " + PyStr(Field(outline, "title", Str("Class Outline")))];
    match ForEach(Field(outline, "sections", Arr([])), OutlineSectionLines)
    case Err(e) => Err(e)
    case Ok(body) => Ok(Join(head + body, "\n\n"))
  }

  /** The three labelled lists of an instructor section and their keys, in the order the source lists them. */
  const GuideKeys: seq<(string, string)> :=
    [("Learning Objectives", "learningObjectives"), ("Talking Points", "talkingPoints"),
     ("Suggested Activities", "suggestedActivities")]

  function GuideEntry(section: Json, entry: (string, string)): Result<seq<string>>
    requires section.Obj?
  {
    Labelled(entry.0, Or(Field(section, entry.1, Arr([])), Arr([])))
  }

  /** The inner `for label, key in (...)` loop over the first `|keys|` pairs. */
  function GuideEntries(section: Json, keys: seq<(string, string)>): Result<seq<string>>
    requires section.Obj?
  {
    if keys == [] then Ok([]) else Then(GuideEntries(section, keys[..|keys| - 1]), GuideEntry(section, keys[|keys| - 1]))
  }

  function GuideSectionLines(section: Json): Result<seq<string>>
  {
    match Get(section, "title", Str("Section"))
    case Err(e) => Err(e)
    case Ok(title) =>
      var timing := Field(section, "timingMinutes");
      Then(Then(Ok(["## " + PyStr(title)]), GuideEntries(section, GuideKeys)),
           Ok(if Truthy(timing) then ["_Timing: " + PyStr(timing) + " minutes_"] else []))
  }

  function InstructorMd(guide: Json): Result<string>
  {
    if !guide.Obj? then Err("AttributeError: object has no attribute 'get'") else
    var head := ["# Instructor Guide: " + PyStr(Field(guide, "courseTitle", Str("")))];
    match ForEach(Field(guide, "sections", Arr([])), GuideSectionLines)
    case Err(e) => Err(e)
    case Ok(body) => Ok(Join(head + body, "\n\n"))
  }

  /** `if text: lines.append(caption); lines.append(text)` */
  function TextBlock(caption: string, text: Json): seq<Json>
  {
    if Truthy(text) then [Str(caption), text] else []
  }

  /** `if duration: lines.append(f"_Duration: {duration} seconds_")` */
  function SecondsLine(duration: Json): seq<Json>
  {
    if Truthy(duration) then [Str("_Duration: " + PyStr(duration) + " seconds_")] else []
  }

  /**
   * One segment's lines.  The narration and the screen directions are
   * appended as they are, so these lines are values, not yet strings.
   */
  function SegmentLines(segment: Json): Result<seq<Json>>
  {
    match Get(segment, "title", Str("Segment"))
    case Err(e) => Err(e)
    case Ok(title) =>
      Ok([Str("## " + PyStr(title))]
         + TextBlock("**Narration**", Field(segment, "narration"))
         + TextBlock("**Screen Directions**", Field(segment, "screenDirections"))
         + SecondsLine(Field(segment, "durationSeconds")))
  }

  predicate AllStr(lines: seq<Json>)
  {
    forall k :: 0 <= k < |lines| ==> lines[k].Str?
  }

  /** `sep.join(lines)`: every line must be a string. */
  function JoinLines(lines: seq<Json>, sep: string): (r: Result<string>)
    ensures r.Ok? <==> AllStr(lines)
  {
    if AllStr(lines) then Ok(Join(seq(|lines|, k requires 0 <= k < |lines| => lines[k].s), sep))
    else Err("TypeError: sequence item: expected str instance")
  }

  function VideoMd(video: Json): Result<string>
  {
    if !video.Obj? then Err("AttributeError: object has no attribute 'get'") else
    var head := [Str("# Video Script: " + PyStr(Field(video, "courseTitle", Str(""))))];
    match ForEach(Field(video, "segments", Arr([])), SegmentLines)
    case Err(e) => Err(e)
    case Ok(body) => JoinLines(head + body, "\n\n")
  }

  function StepLines(step: Json): Result<seq<string>>
  {
    match Get(step, "stepNumber")
    case Err(e) => Err(e)
    case Ok(num) =>
      var action := Field(step, "action");
      var notes := Field(step, "notes");
      Ok(["## Step " + PyStr(num) + ": " + PyStr(Field(step, "title", Str("Step")))]
         + (if Truthy(action) then ["- **Action:** " + PyStr(action)] else [])
         + (if Truthy(notes) then ["- **Notes:** " + PyStr(notes)] else []))
  }

  function QrgMd(qrg: Json): Result<string>
  {
    if !qrg.Obj? then Err("AttributeError: object has no attribute 'get'") else
    var head := ["# Quick Reference Guide: " + PyStr(Field(qrg, "courseTitle", Str("")))];
    match ForEach(Field(qrg, "steps", Arr([])), StepLines)
    case Err(e) => Err(e)
    case Ok(body) => Ok(Join(head + body, "\n\n"))
  }

  lemma GuideEntriesSnoc(section: Json, keys: seq<(string, string)>, j: nat)
    requires section.Obj? && j < |keys|
    ensures GuideEntries(section, keys[..j + 1]) == Then(GuideEntries(section, keys[..j]), GuideEntry(section, keys[j]))
  {
    assert keys[..j + 1][..j] == keys[..j];
  }

  lemma {:induction false} GuideEntriesErrStands(section: Json, keys: seq<(string, string)>, j: nat)
    requires section.Obj? && j <= |keys| && GuideEntries(section, keys[..j]).Err?
    ensures GuideEntries(section, keys) == GuideEntries(section, keys[..j])
    decreases |keys| - j
  {
    if j < |keys| {
      GuideEntriesSnoc(section, keys, j);
      GuideEntriesErrStands(section, keys, j + 1);
    } else {
      assert keys[..j] == keys;
    }
  }

  // ---------------------------------------------------------------------
  // The renderers as written
  // ---------------------------------------------------------------------

  /** A labelled list, appended when it is truthy; iterating it can raise. */
  method AppendLabelled(lines: seq<string>, caption: string, entries: Json) returns (r: Result<seq<string>>)
    ensures r == Then(Ok(lines), Labelled(caption, entries))
  {
    if !Truthy(entries) {
      assert lines + [] == lines;
      return Ok(lines);
    }
    var items := PyList(entries);
    if items.Err? {
      return Err(items.error);
    }
    var out := lines + ["**" + caption + "**"];
    out := AppendBullets(out, "- ", items.value);
    AppendAssoc(lines, ["**" + caption + "**"], Bullets("- ", items.value));
    r := Ok(out);
  }

  method AppendOutlineSection(lines: seq<string>, section: Json, ghost render: Json -> Result<seq<string>>) returns (r: Result<seq<string>>)
    requires Agrees(render, OutlineSectionLines)
    ensures r == Then(Ok(lines), render(section))
  {
    ghost var spec := OutlineSectionLines;
    assert render(section) == spec(section);
    var title := Get(section, "title", Str("Section"));
    if title.Err? {
      return Err(title.error);
    }
    var h := ["## " + PyStr(title.value)];
    var objectives := Or(Field(section, "objectives", Arr([])), Arr([]));
    var block := AppendLabelled(lines + h, "Objectives", objectives);
    if block.Err? {
      return Err(block.error);
    }
    var duration := Field(section, "durationMinutes");
    var d := if Truthy(duration) then ["_Duration: " + PyStr(duration) + " minutes_"] else [];
    ghost var l := Labelled("Objectives", objectives).value;
    AppendAssoc(lines, h, l);
    AppendAssoc(lines, h + l, d);
    r := Ok(block.value + d);
  }

  /** `for section in outline.get("sections", []):` over the items. */
  method AppendOutlineSections(lines: seq<string>, sections: seq<Json>, ghost render: Json -> Result<seq<string>>) returns (r: Result<seq<string>>)
    requires Agrees(render, OutlineSectionLines)
    ensures r == Then(Ok(lines), FlatMapR(sections, render))
  {
    var out := lines;
    var i := 0;
    while i < |sections|
      invariant 0 <= i <= |sections|
      invariant FlatMapR(sections[..i], render).Ok?
      invariant out == lines + FlatMapR(sections[..i], render).value
    {
      var next := AppendOutlineSection(out, sections[i], render);
      FlatMapRSnoc(sections, i, render);
      if next.Err? {
        FlatMapRErrStands(sections, i + 1, render);
        return Err(next.error);
      }
      AppendAssoc(lines, FlatMapR(sections[..i], render).value, render(sections[i]).value);
      out := next.value;
      i := i + 1;
    }
    assert sections[..i] == sections;
    r := Ok(out);
  }

  method OutlineToMarkdown(outline: Json) returns (r: Result<string>)
    ensures r == OutlineMd(outline)
  {
    if !outline.Obj? {
      return Err("AttributeError: object has no attribute 'get'");
    }
    var head := ["# " + PyStr(Field(outline, "title", Str("Class Outline")))];
    var iter := PyList(Field(outline, "sections", Arr([])));
    if iter.Err? {
      return Err(iter.error);
    }
    var body := AppendOutlineSections(head, iter.value, OutlineSectionLines);
    if body.Err? {
      return Err(body.error);
    }
    r := Ok(Join(body.value, "\n\n"));
  }

  /** The inner `for label, key in (...)` loop of one instructor section. */
  method AppendEntries(lines: seq<string>, section: Json) returns (r: Result<seq<string>>)
    requires section.Obj?
    ensures r == Then(Ok(lines), GuideEntries(section, GuideKeys))
  {
    var out := lines;
    var j := 0;
    while j < |GuideKeys|
      invariant 0 <= j <= |GuideKeys|
      invariant GuideEntries(section, GuideKeys[..j]).Ok?
      invariant out == lines + GuideEntries(section, GuideKeys[..j]).value
    {
      var (caption, key) := GuideKeys[j];
      var next := AppendLabelled(out, caption, Or(Field(section, key, Arr([])), Arr([])));
      GuideEntriesSnoc(section, GuideKeys, j);
      if next.Err? {
        GuideEntriesErrStands(section, GuideKeys, j + 1);
        return Err(next.error);
      }
      AppendAssoc(lines, GuideEntries(section, GuideKeys[..j]).value, GuideEntry(section, GuideKeys[j]).value);
      out := next.value;
      j := j + 1;
    }
    assert GuideKeys[..j] == GuideKeys;
    r := Ok(out);
  }

  method AppendGuideSection(lines: seq<string>, section: Json, ghost render: Json -> Result<seq<string>>) returns (r: Result<seq<string>>)
    requires Agrees(render, GuideSectionLines)
    ensures r == Then(Ok(lines), render(section))
  {
    ghost var spec := GuideSectionLines;
    assert render(section) == spec(section);
    var title := Get(section, "title", Str("Section"));
    if title.Err? {
      return Err(title.error);
    }
    var h := ["## " + PyStr(title.value)];
    var block := AppendEntries(lines + h, section);
    if block.Err? {
      return Err(block.error);
    }
    var timing := Field(section, "timingMinutes");
    var t := if Truthy(timing) then ["_Timing: " + PyStr(timing) + " minutes_"] else [];
    ghost var l := GuideEntries(section, GuideKeys).value;
    AppendAssoc(lines, h, l);
    AppendAssoc(lines, h + l, t);
    r := Ok(block.value + t);
  }

  /** `for section in guide.get("sections", []):` over the items. */
  method AppendGuideSections(lines: seq<string>, sections: seq<Json>, ghost render: Json -> Result<seq<string>>) returns (r: Result<seq<string>>)
    requires Agrees(render, GuideSectionLines)
    ensures r == Then(Ok(lines), FlatMapR(sections, render))
  {
    var out := lines;
    var i := 0;
    while i < |sections|
      invariant 0 <= i <= |sections|
      invariant FlatMapR(sections[..i], render).Ok?
      invariant out == lines + FlatMapR(sections[..i], render).value
    {
      var next := AppendGuideSection(out, sections[i], render);
      FlatMapRSnoc(sections, i, render);
      if next.Err? {
        FlatMapRErrStands(sections, i + 1, render);
        return Err(next.error);
      }
      AppendAssoc(lines, FlatMapR(sections[..i], render).value, render(sections[i]).value);
      out := next.value;
      i := i + 1;
    }
    assert sections[..i] == sections;
    r := Ok(out);
  }

  method InstructorToMarkdown(guide: Json) returns (r: Result<string>)
    ensures r == InstructorMd(guide)
  {
    if !guide.Obj? {
      return Err("AttributeError: object has no attribute 'get'");
    }
    var head := ["# Instructor Guide: " + PyStr(Field(guide, "courseTitle", Str("")))];
    var iter := PyList(Field(guide, "sections", Arr([])));
    if iter.Err? {
      return Err(iter.error);
    }
    var body := AppendGuideSections(head, iter.value, GuideSectionLines);
    if body.Err? {
      return Err(body.error);
    }
    r := Ok(Join(body.value, "\n\n"));
  }

  /** `if text: lines.append(caption); lines.append(text)` */
  method AppendText(lines: seq<Json>, caption: string, text: Json) returns (out: seq<Json>)
    ensures out == lines + TextBlock(caption, text)
  {
    out := lines;
    if Truthy(text) {
      out := out + [Str(caption)];
      out := out + [text];
      assert out == lines + [Str(caption), text];
    } else {
      assert lines + [] == lines;
    }
  }

  method AppendSegment(lines: seq<Json>, segment: Json, ghost render: Json -> Result<seq<Json>>) returns (r: Result<seq<Json>>)
    requires Agrees(render, SegmentLines)
    ensures r == Then(Ok(lines), render(segment))
  {
    ghost var spec := SegmentLines;
    assert render(segment) == spec(segment);
    var title := Get(segment, "title", Str("Segment"));
    if title.Err? {
      return Err(title.error);
    }
    var heading := [Str("## " + PyStr(title.value))];
    var out := lines + heading;
    var narration := Field(segment, "narration");
    out := AppendText(out, "**Narration**", narration);
    var directions := Field(segment, "screenDirections");
    out := AppendText(out, "**Screen Directions**", directions);
    var duration := Field(segment, "durationSeconds");
    var tail: seq<Json> := [];
    if Truthy(duration) {
      tail := [Str("_Duration: " + PyStr(duration) + " seconds_")];
      out := out + tail;
    } else {
      assert out + tail == out;
    }
    ghost var n := TextBlock("**Narration**", narration);
    ghost var d := TextBlock("**Screen Directions**", directions);
    assert tail == SecondsLine(duration);
    AppendAssoc4(lines, heading, n, d, tail);
    assert SegmentLines(segment) == Ok(heading + n + d + tail);
    r := Ok(out);
  }

  /** `for segment in video.get("segments", []):` over the items. */
  method AppendSegments(lines: seq<Json>, segments: seq<Json>, ghost render: Json -> Result<seq<Json>>) returns (r: Result<seq<Json>>)
    requires Agrees(render, SegmentLines)
    ensures r == Then(Ok(lines), FlatMapR(segments, render))
  {
    var out := lines;
    var i := 0;
    while i < |segments|
      invariant 0 <= i <= |segments|
      invariant FlatMapR(segments[..i], render).Ok?
      invariant out == lines + FlatMapR(segments[..i], render).value
    {
      var next := AppendSegment(out, segments[i], render);
      FlatMapRSnoc(segments, i, render);
      if next.Err? {
        FlatMapRErrStands(segments, i + 1, render);
        return Err(next.error);
      }
      AppendAssoc(lines, FlatMapR(segments[..i], render).value, render(segments[i]).value);
      out := next.value;
      i := i + 1;
    }
    assert segments[..i] == segments;
    r := Ok(out);
  }

  method VideoToMarkdown(video: Json) returns (r: Result<string>)
    ensures r == VideoMd(video)
  {
    if !video.Obj? {
      return Err("AttributeError: object has no attribute 'get'");
    }
    var head := [Str("# Video Script: " + PyStr(Field(video, "courseTitle", Str(""))))];
    var iter := PyList(Field(video, "segments", Arr([])));
    if iter.Err? {
      return Err(iter.error);
    }
    var body := AppendSegments(head, iter.value, SegmentLines);
    if body.Err? {
      return Err(body.error);
    }
    r := JoinLines(body.value, "\n\n");
  }

  method AppendStep(lines: seq<string>, step: Json, ghost render: Json -> Result<seq<string>>) returns (r: Result<seq<string>>)
    requires Agrees(render, StepLines)
    ensures r == Then(Ok(lines), render(step))
  {
    ghost var spec := StepLines;
    assert render(step) == spec(step);
    var num := Get(step, "stepNumber");
    if num.Err? {
      return Err(num.error);
    }
    var title := Field(step, "title", Str("Step"));
    var out := lines + ["## Step " + PyStr(num.value) + ": " + PyStr(title)];
    ghost var block := ["## Step " + PyStr(num.value) + ": " + PyStr(title)];
    var action := Field(step, "action");
    if Truthy(action) {
      out := out + ["- **Action:** " + PyStr(action)];
      AppendAssoc(lines, block, ["- **Action:** " + PyStr(action)]);
      block := block + ["- **Action:** " + PyStr(action)];
    }
    var notes := Field(step, "notes");
    if Truthy(notes) {
      out := out + ["- **Notes:** " + PyStr(notes)];
      AppendAssoc(lines, block, ["- **Notes:** " + PyStr(notes)]);
      block := block + ["- **Notes:** " + PyStr(notes)];
    }
    assert block == StepLines(step).value;
    r := Ok(out);
  }

  /** `for step in qrg.get("steps", []):` over the items. */
  method AppendSteps(lines: seq<string>, steps: seq<Json>, ghost render: Json -> Result<seq<string>>) returns (r: Result<seq<string>>)
    requires Agrees(render, StepLines)
    ensures r == Then(Ok(lines), FlatMapR(steps, render))
  {
    var out := lines;
    var i := 0;
    while i < |steps|
      invariant 0 <= i <= |steps|
      invariant FlatMapR(steps[..i], render).Ok?
      invariant out == lines + FlatMapR(steps[..i], render).value
    {
      var next := AppendStep(out, steps[i], render);
      FlatMapRSnoc(steps, i, render);
      if next.Err? {
        FlatMapRErrStands(steps, i + 1, render);
        return Err(next.error);
      }
      AppendAssoc(lines, FlatMapR(steps[..i], render).value, render(steps[i]).value);
      out := next.value;
      i := i + 1;
    }
    assert steps[..i] == steps;
    r := Ok(out);
  }

  method QrgToMarkdown(qrg: Json) returns (r: Result<string>)
    ensures r == QrgMd(qrg)
  {
    if !qrg.Obj? {
      return Err("AttributeError: object has no attribute 'get'");
    }
    var head := ["# Quick Reference Guide: " + PyStr(Field(qrg, "courseTitle", Str("")))];
    var iter := PyList(Field(qrg, "steps", Arr([])));
    if iter.Err? {
      return Err(iter.error);
    }
    var body := AppendSteps(head, iter.value, StepLines);
    if body.Err? {
      return Err(body.error);
    }
    r := Ok(Join(body.value, "\n\n"));
  }
}
