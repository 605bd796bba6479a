/**
 * backend/services/formatting.py: markdown for the backend records.  Blocks
 * are joined with "\n\n"; the artifacts other than the outline put the
 * course title in their heading; empty lists, empty texts and a duration
 * of `0` or `None` are all left out.
 */
module Formatting {
  import opened Wrappers
  import opened PyText
  import opened BackendTypes
  import opened Lines

  /** `if value:` on an `Optional[int]` */
  predicate Set(value: Option<int>)
  {
    value.Some? && value.value != 0
  }

  /** `if entries: lines.append(f"**{caption}**"); lines.extend(f"- {e}" for e in entries)` */
  function Labelled(entry: (string, seq<string>)): seq<string>
  {
    if entry.1 != [] then ["**" + entry.0 + "**"] + Prefixed("- ", entry.1) else []
  }

  function OutlineSectionLines(s: ClassOutlineSection): seq<string>
  {
    ["## " + s.title] + Labelled(("Objectives", s.objectives))
    + (if Set(s.durationMinutes) then ["_Duration: " + Decimal(s.durationMinutes.value) + " minutes_"] else [])
  }

  function OutlineToMd(o: ClassOutline): string
  {
    Join(["# " + o.title] + FlatMap(o.sections, OutlineSectionLines), "\n\n")
  }

  /** The three labelled lists of an instructor section, in the order the source lists them. */
  function GuideEntries(s: InstructorGuideSection): seq<(string, seq<string>)>
  {
    [("Learning Objectives", s.learningObjectives), ("Talking Points", s.talkingPoints),
     ("Suggested Activities", s.suggestedActivities)]
  }

  function GuideSectionLines(s: InstructorGuideSection): seq<string>
  {
    ["## " + s.title] + FlatMap(GuideEntries(s), Labelled)
    + (if Set(s.timingMinutes) then ["_Timing: " + Decimal(s.timingMinutes.value) + " minutes_"] else [])
  }

  function InstructorToMd(g: InstructorGuide): string
  {
    Join(["# Instructor Guide: " + g.courseTitle] + FlatMap(g.sections, GuideSectionLines), "\n\n")
  }

  function SegmentLines(s: VideoScriptSegment): seq<string>
  {
    ["## " + s.title]
    + (if s.narration != [] then ["**Narration**", s.narration] else [])
    + (if s.screenDirections != [] then ["**Screen Directions**", s.screenDirections] else [])
    + (if Set(s.durationSeconds) then ["_Duration: " + Decimal(s.durationSeconds.value) + " seconds_"] else [])
  }

  function VideoToMd(v: VideoScript): string
  {
    Join(["# Video Script: " + v.courseTitle] + FlatMap(v.segments, SegmentLines), "\n\n")
  }

  /** `f"## Step {step.stepNumber}: {step.title}"` */
  function StepHeading(s: QuickReferenceStep): string
  {
    "## Step " + Decimal(s.stepNumber) + ": " + s.title
  }

  function StepLines(s: QuickReferenceStep): seq<string>
  {
    [StepHeading(s)]
    + (if s.action != [] then ["- **Action:** " + s.action] else [])
    + (if s.notes.Some? && s.notes.value != [] then ["- **Notes:** " + s.notes.value] else [])
  }

  function QrgToMd(q: QuickReferenceGuide): string
  {
    Join(["# Quick Reference Guide: " + q.courseTitle] + FlatMap(q.steps, StepLines), "\n\n")
  }

  /** `artifacts_to_md(payload)` */
  function ArtifactsToMd(r: GenerateResponse): (m: map<string, string>)
    ensures m.Keys == {"outline", "instructor", "video", "qrg"}
    ensures m["outline"] == OutlineToMd(r.classOutline) && m["instructor"] == InstructorToMd(r.instructorGuide)
    ensures m["video"] == VideoToMd(r.videoScript) && m["qrg"] == QrgToMd(r.quickReferenceGuide)
  {
    map["outline" := OutlineToMd(r.classOutline),
        "instructor" := InstructorToMd(r.instructorGuide),
        "video" := VideoToMd(r.videoScript),
        "qrg" := QrgToMd(r.quickReferenceGuide)]
  }

  // ---------------------------------------------------------------------
  // The renderers as written
  // ---------------------------------------------------------------------

  /** One labelled list, appended when it is non-empty. */
  method AppendLabelled(lines: seq<string>, caption: string, entries: seq<string>) returns (out: seq<string>)
    ensures out == lines + Labelled((caption, entries))
  {
    out := lines;
    if entries != [] {
      out := out + ["**" + caption + "**"];
      out := out + Prefixed("- ", entries);
    }
  }

  /** One outline section's lines, appended. */
  method AppendOutlineSection(lines: seq<string>, section: ClassOutlineSection, ghost render: ClassOutlineSection -> seq<string>)
    returns (out: seq<string>)
    requires Agrees(render, OutlineSectionLines)
    ensures out == lines + render(section)
  {
    ghost var spec := OutlineSectionLines;
    assert render(section) == spec(section);
    var h := ["## " + section.title];
    out := AppendLabelled(lines + h, "Objectives", section.objectives);
    ghost var b := Labelled(("Objectives", section.objectives));
    ghost var t: seq<string> := [];
    if Set(section.durationMinutes) {
      t := ["_Duration: " + Decimal(section.durationMinutes.value) + " minutes_"];
      out := out + ["_Duration: " + Decimal(section.durationMinutes.value) + " minutes_"];
    }
    AppendAssoc(lines, h, b);
    AppendAssoc(lines, h + b, t);
  }

  /** `for section in outline.sections:` */
  method AppendOutlineSections(lines: seq<string>, items: seq<ClassOutlineSection>, ghost render: ClassOutlineSection -> seq<string>)
    returns (out: seq<string>)
    requires Agrees(render, OutlineSectionLines)
    ensures out == lines + FlatMap(items, render)
  {
    out := lines;
    var i := 0;
    while i < |items|
      invariant 0 <= i <= |items|
      invariant out == lines + FlatMap(items[..i], render)
    {
      out := AppendOutlineSection(out, items[i], render);
      FlatMapExtend(lines, items, i, render);
      i := i + 1;
    }
    assert items[..i] == items;
  }

  method OutlineToMarkdown(outline: ClassOutline) returns (md: string)
    ensures md == OutlineToMd(outline)
  {
    var lines := AppendOutlineSections(["# " + outline.title], outline.sections, OutlineSectionLines);
    md := Join(lines, "\n\n");
  }

  /** The inner `for label, entries in (...)` loop of one instructor section. */
  method AppendEntries(lines: seq<string>, entries: seq<(string, seq<string>)>) returns (out: seq<string>)
    ensures out == lines + FlatMap(entries, Labelled)
  {
    out := lines;
    var j := 0;
    while j < |entries|
      invariant 0 <= j <= |entries|
      invariant out == lines + FlatMap(entries[..j], Labelled)
    {
      out := AppendLabelled(out, entries[j].0, entries[j].1);
      FlatMapSnoc(entries, j, Labelled);
      j := j + 1;
    }
    assert entries[..j] == entries;
  }

  /** One instructor section's lines, appended. */
  method AppendGuideSection(lines: seq<string>, section: InstructorGuideSection, ghost render: InstructorGuideSection -> seq<string>)
    returns (out: seq<string>)
    requires Agrees(render, GuideSectionLines)
    ensures out == lines + render(section)
  {
    ghost var spec := GuideSectionLines;
    assert render(section) == spec(section);
    var h := ["## " + section.title];
    out := AppendEntries(lines + h, GuideEntries(section));
    ghost var b := FlatMap(GuideEntries(section), Labelled);
    ghost var t: seq<string> := [];
    if Set(section.timingMinutes) {
      t := ["_Timing: " + Decimal(section.timingMinutes.value) + " minutes_"];
      out := out + ["_Timing: " + Decimal(section.timingMinutes.value) + " minutes_"];
    }
    AppendAssoc(lines, h, b);
    AppendAssoc(lines, h + b, t);
  }

  /** `for section in guide.sections:` */
  method AppendGuideSections(lines: seq<string>, items: seq<InstructorGuideSection>, ghost render: InstructorGuideSection -> seq<string>)
    returns (out: seq<string>)
    requires Agrees(render, GuideSectionLines)
    ensures out == lines + FlatMap(items, render)
  {
    out := lines;
    var i := 0;
    while i < |items|
      invariant 0 <= i <= |items|
      invariant out == lines + FlatMap(items[..i], render)
    {
      out := AppendGuideSection(out, items[i], render);
      FlatMapExtend(lines, items, i, render);
      i := i + 1;
    }
    assert items[..i] == items;
  }

  method InstructorToMarkdown(guide: InstructorGuide) returns (md: string)
    ensures md == InstructorToMd(guide)
  {
    var lines := AppendGuideSections(["# Instructor Guide: " + guide.courseTitle], guide.sections, GuideSectionLines);
    md := Join(lines, "\n\n");
  }

  /** One segment's lines, appended. */
  method AppendSegment(lines: seq<string>, segment: VideoScriptSegment, ghost render: VideoScriptSegment -> seq<string>)
    returns (out: seq<string>)
    requires Agrees(render, SegmentLines)
    ensures out == lines + render(segment)
  {
    ghost var spec := SegmentLines;
    assert render(segment) == spec(segment);
    out := lines + ["## " + segment.title];
    if segment.narration != [] {
      out := out + ["**Narration**"];
      out := out + [segment.narration];
    }
    if segment.screenDirections != [] {
      out := out + ["**Screen Directions**"];
      out := out + [segment.screenDirections];
    }
    if Set(segment.durationSeconds) {
      out := out + ["_Duration: " + Decimal(segment.durationSeconds.value) + " seconds_"];
    }
  }

  /** `for segment in video.segments:` */
  method AppendSegments(lines: seq<string>, items: seq<VideoScriptSegment>, ghost render: VideoScriptSegment -> seq<string>)
    returns (out: seq<string>)
    requires Agrees(render, SegmentLines)
    ensures out == lines + FlatMap(items, render)
  {
    out := lines;
    var i := 0;
    while i < |items|
      invariant 0 <= i <= |items|
      invariant out == lines + FlatMap(items[..i], render)
    {
      out := AppendSegment(out, items[i], render);
      FlatMapExtend(lines, items, i, render);
      i := i + 1;
    }
    assert items[..i] == items;
  }

  method VideoToMarkdown(video: VideoScript) returns (md: string)
    ensures md == VideoToMd(video)
  {
    var lines := AppendSegments(["# Video Script: " + video.courseTitle], video.segments, SegmentLines);
    md := Join(lines, "\n\n");
  }

  /** One step's lines, appended. */
  method AppendStep(lines: seq<string>, step: QuickReferenceStep, ghost render: QuickReferenceStep -> seq<string>)
    returns (out: seq<string>)
    requires Agrees(render, StepLines)
    ensures out == lines + render(step)
  {
    ghost var spec := StepLines;
    assert render(step) == spec(step);
    out := lines + [StepHeading(step)];
    if step.action != [] {
      out := out + ["- **Action:** " + step.action];
    }
    if step.notes.Some? && step.notes.value != [] {
      out := out + ["- **Notes:** " + step.notes.value];
    }
  }

  /** `for step in qrg.steps:` */
  method AppendSteps(lines: seq<string>, items: seq<QuickReferenceStep>, ghost render: QuickReferenceStep -> seq<string>)
    returns (out: seq<string>)
    requires Agrees(render, StepLines)
    ensures out == lines + FlatMap(items, render)
  {
    out := lines;
    var i := 0;
    while i < |items|
      invariant 0 <= i <= |items|
      invariant out == lines + FlatMap(items[..i], render)
    {
      out := AppendStep(out, items[i], render);
      FlatMapExtend(lines, items, i, render);
      i := i + 1;
    }
    assert items[..i] == items;
  }

  method QrgToMarkdown(qrg: QuickReferenceGuide) returns (md: string)
    ensures md == QrgToMd(qrg)
  {
    var lines := AppendSteps(["# Quick Reference Guide: " + qrg.courseTitle], qrg.steps, StepLines);
    md := Join(lines, "\n\n");
  }

  // ---------------------------------------------------------------------
  // Properties
  // ---------------------------------------------------------------------

  /** An artifact with nothing in it renders as its heading alone; three headings carry the course title. */
  lemma EmptyArtifacts(title: string)
    ensures OutlineToMd(ClassOutline(title)) == "# " + title
    ensures InstructorToMd(InstructorGuide(title)) == "# Instructor Guide: " + title
    ensures VideoToMd(VideoScript(title)) == "# Video Script: " + title
    ensures QrgToMd(QuickReferenceGuide(title)) == "# Quick Reference Guide: " + title
  {
    assert ["# " + title] + FlatMap([], OutlineSectionLines) == ["# " + title];
    assert ["# Instructor Guide: " + title] + FlatMap([], GuideSectionLines) == ["# Instructor Guide: " + title];
    assert ["# Video Script: " + title] + FlatMap([], SegmentLines) == ["# Video Script: " + title];
    assert ["# Quick Reference Guide: " + title] + FlatMap([], StepLines) == ["# Quick Reference Guide: " + title];
  }

  /** Consecutive blocks are separated by one blank line: the join of two blocks. */
  lemma BlocksSeparatedByBlankLine(heading: string, block: string)
    ensures Join([heading, block], "\n\n") == heading + "\n\n" + block
  {
    assert [heading, block][..1] == [heading];
  }

  /** The instructor blocks come in the fixed order Learning Objectives, Talking Points, Suggested Activities, each only when non-empty. */
  lemma GuideBlockOrder(s: InstructorGuideSection)
    ensures FlatMap(GuideEntries(s), Labelled) ==
      Labelled(("Learning Objectives", s.learningObjectives))
      + Labelled(("Talking Points", s.talkingPoints))
      + Labelled(("Suggested Activities", s.suggestedActivities))
  {
    var e := GuideEntries(s);
    assert e[..0] == [];
    FlatMapSnoc(e, 0, Labelled);
    FlatMapSnoc(e, 1, Labelled);
    FlatMapSnoc(e, 2, Labelled);
    assert e[0] == ("Learning Objectives", s.learningObjectives);
    assert e[1] == ("Talking Points", s.talkingPoints);
    assert e[2] == ("Suggested Activities", s.suggestedActivities);
    assert e[..3] == e;
  }

  /** A line that starts with `#`, `*` or `-` is no duration line. */
  lemma NotDurationLine(line: string)
    requires line != [] && (line[0] == '#' || line[0] == '*' || line[0] == '-')
    ensures !StartsWith(line, "_Duration:")
  {
    DiffersAt(line, "_Duration:", 0);
  }

  /** The duration line appears exactly when the duration is set and non-zero. */
  lemma OutlineDurationRule(s: ClassOutlineSection)
    ensures (exists line :: line in OutlineSectionLines(s) && StartsWith(line, "_Duration:")) <==> Set(s.durationMinutes)
    ensures s.durationMinutes == Some(0) || s.durationMinutes == None ==>
      forall line :: line in OutlineSectionLines(s) ==> !StartsWith(line, "_Duration:")
  {
    var pre := ["## " + s.title] + Labelled(("Objectives", s.objectives));
    forall line | line in pre
      ensures !StartsWith(line, "_Duration:")
    {
      if line in Prefixed("- ", s.objectives) {
        assert line[0] == '-';
      }
      NotDurationLine(line);
    }
    if Set(s.durationMinutes) {
      var line := "_Duration: " + Decimal(s.durationMinutes.value) + " minutes_";
      assert line == "_Duration:" + (" " + Decimal(s.durationMinutes.value) + " minutes_");
      StartsWithConcat("_Duration:", " " + Decimal(s.durationMinutes.value) + " minutes_");
      assert OutlineSectionLines(s) == pre + [line];
      assert OutlineSectionLines(s)[|pre|] == line;
    } else {
      assert OutlineSectionLines(s) == pre;
    }
  }

  /**
   * Empty narration and empty screen directions are each left out together
   * with their caption: the segment has one heading line, two lines per
   * non-empty text and one duration line when set, and the line after the
   * heading is the narration caption exactly when the narration is non-empty.
   */
  lemma EmptySegmentTextsOmitted(seg: VideoScriptSegment)
    ensures |SegmentLines(seg)| == 1 + (if seg.narration != [] then 2 else 0)
      + (if seg.screenDirections != [] then 2 else 0) + (if Set(seg.durationSeconds) then 1 else 0)
    ensures (|SegmentLines(seg)| > 1 && SegmentLines(seg)[1] == "**Narration**") <==> seg.narration != []
    ensures seg.narration == [] ==>
      ((|SegmentLines(seg)| > 1 && SegmentLines(seg)[1] == "**Screen Directions**") <==> seg.screenDirections != [])
    ensures seg.narration != [] ==> SegmentLines(seg)[2] == seg.narration
  {
    var h := ["## " + seg.title];
    var n := if seg.narration != [] then ["**Narration**", seg.narration] else [];
    var d := if seg.screenDirections != [] then ["**Screen Directions**", seg.screenDirections] else [];
    var t := if Set(seg.durationSeconds) then ["_Duration: " + Decimal(seg.durationSeconds.value) + " seconds_"] else [];
    assert SegmentLines(seg) == h + n + d + t;
    if t != [] {
      assert t[0][0] == '_';
    }
  }

  /** An empty action is left out: an action line is present exactly when the action is non-empty. */
  lemma EmptyActionOmitted(step: QuickReferenceStep)
    ensures (exists line :: line in StepLines(step) && StartsWith(line, "- **Action:**")) <==> step.action != []
  {
    var caption := "- **Action:**";
    DiffersAt(StepLines(step)[0], caption, 0);
    if step.action != [] {
      StartsWithConcat(caption, " " + step.action);
      assert "- **Action:** " + step.action == caption + (" " + step.action);
      assert StepLines(step)[1] == caption + (" " + step.action);
    }
    if step.notes.Some? && step.notes.value != [] {
      var notes := "- **Notes:** " + step.notes.value;
      DiffersAt(notes, caption, 4);
    }
  }

  /** Every document opens with its heading; three of them carry the course title. */
  lemma HeadingsCarryTitle(r: GenerateResponse)
    ensures StartsWith(OutlineToMd(r.classOutline), "# " + r.classOutline.title)
    ensures StartsWith(InstructorToMd(r.instructorGuide), "# Instructor Guide: " + r.instructorGuide.courseTitle)
    ensures StartsWith(VideoToMd(r.videoScript), "# Video Script: " + r.videoScript.courseTitle)
    ensures StartsWith(QrgToMd(r.quickReferenceGuide), "# Quick Reference Guide: " + r.quickReferenceGuide.courseTitle)
  {
    JoinStartsWithFirst(["# " + r.classOutline.title] + FlatMap(r.classOutline.sections, OutlineSectionLines), "\n\n");
    JoinStartsWithFirst(["# Instructor Guide: " + r.instructorGuide.courseTitle]
      + FlatMap(r.instructorGuide.sections, GuideSectionLines), "\n\n");
    JoinStartsWithFirst(["# Video Script: " + r.videoScript.courseTitle] + FlatMap(r.videoScript.segments, SegmentLines), "\n\n");
    JoinStartsWithFirst(["# Quick Reference Guide: " + r.quickReferenceGuide.courseTitle]
      + FlatMap(r.quickReferenceGuide.steps, StepLines), "\n\n");
  }

  /** A labelled list is its caption followed by one bullet per entry, or nothing when there are no entries. */
  lemma LabelledBlock(caption: string, entries: seq<string>)
    ensures entries == [] ==> Labelled((caption, entries)) == []
    ensures entries != [] ==> (|Labelled((caption, entries))| == |entries| + 1
      && Labelled((caption, entries))[0] == "**" + caption + "**"
      && forall k :: 0 <= k < |entries| ==> Labelled((caption, entries))[k + 1] == "- " + entries[k])
  {
  }

  /** A timing of `0` or `None` adds no line; any other timing adds exactly one, after the labelled lists. */
  lemma GuideTimingRule(s: InstructorGuideSection, n: int)
    ensures GuideSectionLines(s.(timingMinutes := Some(0))) == GuideSectionLines(s.(timingMinutes := None))
    ensures n != 0 ==> (GuideSectionLines(s.(timingMinutes := Some(n)))
      == GuideSectionLines(s.(timingMinutes := None)) + ["_Timing: " + Decimal(n) + " minutes_"])
  {
  }

  /** A duration of `0` or `None` adds no line; any other duration adds exactly one, after the texts. */
  lemma SegmentDurationRule(s: VideoScriptSegment, n: int)
    ensures SegmentLines(s.(durationSeconds := Some(0))) == SegmentLines(s.(durationSeconds := None))
    ensures n != 0 ==> (SegmentLines(s.(durationSeconds := Some(n)))
      == SegmentLines(s.(durationSeconds := None)) + ["_Duration: " + Decimal(n) + " seconds_"])
  {
  }
}
