/**
 * generator/markdown_utils.py: markdown for the generator records.  Each
 * renderer collects lines, joins them with "\n" and strips the result.
 * Optional blocks appear only when their value is truthy, so a duration of
 * `0` is left out just like `None`.
 *
 * The renderers iterate the list fields and join `narration` and
 * `screen_directions` as strings, so they ask for records whose list
 * fields are lists and whose texts are strings (the annotated types);
 * generator/generator.py always produces such records.
 */
module MarkdownUtils {
  import opened Wrappers
  import opened PyText
  import opened Json
  import opened GeneratorModels
  import opened Lines

  /** The items of a list field (the renderers only see lists there). */
  function ListItems(j: Json): seq<Json>
  {
    if j.Arr? then j.items else []
  }

  /** `if xs: lines.append(heading); for x in xs: lines.append(f"- {x}"); lines.append("")` */
  function Block(heading: string, xs: Json): seq<string>
  {
    if Truthy(xs) then [heading] + Bullets("- ", ListItems(xs)) + [""] else []
  }

  /** `if value: lines.append(f"{label} {value} {unit}"); lines.append("")` */
  function TimeLines(caption: string, value: Json, unit: string): seq<string>
  {
    if Truthy(value) then [caption + " " + PyStr(value) + " " + unit, ""] else []
  }

  function OutlineSectionLines(s: OutlineSection): seq<string>
  {
    ["## " + PyStr(s.title)] + Block("### Objectives", s.objectives) + Block("### Subtopics", s.subtopics)
    + TimeLines("**Duration:**", s.durationMinutes, "minutes")
  }

  function OutlineMarkdown(o: ClassOutline): string
  {
    Strip(Join(["# " + PyStr(o.title), ""] + FlatMap(o.sections, OutlineSectionLines), "\n"))
  }

  function GuideSectionLines(s: InstructorSection): seq<string>
  {
    ["## " + PyStr(s.title)] + Block("### Learning Objectives", s.learningObjectives)
    + Block("### Talking Points", s.talkingPoints) + Block("### Suggested Activities", s.suggestedActivities)
    + TimeLines("**Estimated Time:**", s.estimatedTimeMinutes, "minutes")
  }

  function GuideMarkdown(g: InstructorGuide): string
  {
    Strip(Join(["# Instructor Guide", ""] + FlatMap(g.sections, GuideSectionLines), "\n"))
  }

  /** The lines of the segment numbered `idx`. */
  function SegmentLines(idx: nat, s: VideoSegment): seq<string>
  {
    ["## Segment " + NatDecimal(idx) + ": " + PyStr(s.title),
     "### Narration", PyStr(s.narration), "",
     "### Screen Directions", PyStr(s.screenDirections), ""]
    + (if Truthy(s.approxDurationSeconds) then ["**Approx Duration:** " + PyStr(s.approxDurationSeconds) + " seconds"] else [])
    + [""]
  }

  /** `enumerate(segments, start=1)`: the last segment is numbered `|segs|`. */
  function SegmentsLines(segs: seq<VideoSegment>): seq<string>
  {
    Enumerated(segs, SegmentLines)
  }

  function ScriptMarkdown(v: VideoScript): string
  {
    Strip(Join(["# Video Script", ""] + SegmentsLines(v.segments), "\n"))
  }

  function StepLines(s: QuickRefStep): seq<string>
  {
    ["## Step " + PyStr(s.stepNumber) + ": " + PyStr(s.title), "**Action:** " + PyStr(s.action)]
    + (if Truthy(s.notes) then ["**Notes:** " + PyStr(s.notes)] else [])
    + [""]
  }

  function QuickRefMarkdown(q: QuickReferenceGuide): string
  {
    Strip(Join(["# Quick Reference Guide", ""] + FlatMap(q.steps, StepLines), "\n"))
  }

  // ---------------------------------------------------------------------
  // The renderers as written
  // ---------------------------------------------------------------------

  /** One optional bulleted block. */
  method AppendBlock(lines: seq<string>, heading: string, xs: Json) returns (out: seq<string>)
    requires xs.Arr?
    ensures out == lines + Block(heading, xs)
  {
    out := lines;
    if Truthy(xs) {
      out := out + [heading];
      out := AppendBullets(out, "- ", xs.items);
      out := out + [""];
    }
  }

  /** One optional timing line and its blank line. */
  method AppendTime(lines: seq<string>, caption: string, value: Json, unit: string) returns (out: seq<string>)
    ensures out == lines + TimeLines(caption, value, unit)
  {
    out := lines;
    if Truthy(value) {
      out := out + [caption + " " + PyStr(value) + " " + unit];
      out := out + [""];
    }
  }

  method AppendOutlineSection(lines: seq<string>, section: OutlineSection, ghost render: OutlineSection -> seq<string>)
    returns (out: seq<string>)
    requires section.objectives.Arr? && section.subtopics.Arr? && Agrees(render, OutlineSectionLines)
    ensures out == lines + render(section)
  {
    ghost var spec := OutlineSectionLines;
    assert render(section) == spec(section);
    var l1 := lines + ["## " + PyStr(section.title)];
    var l2 := AppendBlock(l1, "### Objectives", section.objectives);
    var l3 := AppendBlock(l2, "### Subtopics", section.subtopics);
    out := AppendTime(l3, "**Duration:**", section.durationMinutes, "minutes");
  }

  /** `for section in outline.sections:` */
  method AppendOutlineSections(lines: seq<string>, sections: seq<OutlineSection>, ghost render: OutlineSection -> seq<string>)
    returns (out: seq<string>)
    requires forall k :: 0 <= k < |sections| ==> sections[k].objectives.Arr? && sections[k].subtopics.Arr?
    requires Agrees(render, OutlineSectionLines)
    ensures out == lines + FlatMap(sections, render)
  {
    out := lines;
    var i := 0;
    while i < |sections|
      invariant 0 <= i <= |sections|
      invariant out == lines + FlatMap(sections[..i], render)
    {
      out := AppendOutlineSection(out, sections[i], render);
      FlatMapExtend(lines, sections, i, render);
      i := i + 1;
    }
    assert sections[..i] == sections;
  }

  method OutlineToMarkdown(outline: ClassOutline) returns (md: string)
    requires OutlineListsAreLists(outline)
    ensures md == OutlineMarkdown(outline)
  {
    var lines := AppendOutlineSections(["# " + PyStr(outline.title), ""], outline.sections, OutlineSectionLines);
    md := Strip(Join(lines, "\n"));
  }

  method AppendGuideSection(lines: seq<string>, section: InstructorSection, ghost render: InstructorSection -> seq<string>)
    returns (out: seq<string>)
    requires section.learningObjectives.Arr? && section.talkingPoints.Arr? && section.suggestedActivities.Arr?
    requires Agrees(render, GuideSectionLines)
    ensures out == lines + render(section)
  {
    ghost var spec := GuideSectionLines;
    assert render(section) == spec(section);
    var l1 := lines + ["## " + PyStr(section.title)];
    var l2 := AppendBlock(l1, "### Learning Objectives", section.learningObjectives);
    var l3 := AppendBlock(l2, "### Talking Points", section.talkingPoints);
    var l4 := AppendBlock(l3, "### Suggested Activities", section.suggestedActivities);
    out := AppendTime(l4, "**Estimated Time:**", section.estimatedTimeMinutes, "minutes");
    ghost var h := ["## " + PyStr(section.title)];
    ghost var b1 := Block("### Learning Objectives", section.learningObjectives);
    ghost var b2 := Block("### Talking Points", section.talkingPoints);
    ghost var b3 := Block("### Suggested Activities", section.suggestedActivities);
    ghost var t := TimeLines("**Estimated Time:**", section.estimatedTimeMinutes, "minutes");
    AppendAssoc(lines, h, b1);
    AppendAssoc(lines, h + b1, b2);
    AppendAssoc(lines, h + b1 + b2, b3);
    AppendAssoc(lines, h + b1 + b2 + b3, t);
  }

  /** `for section in guide.sections:` */
  method AppendGuideSections(lines: seq<string>, sections: seq<InstructorSection>, ghost render: InstructorSection -> seq<string>)
    returns (out: seq<string>)
    requires forall k :: 0 <= k < |sections| ==>
      sections[k].learningObjectives.Arr? && sections[k].talkingPoints.Arr? && sections[k].suggestedActivities.Arr?
    requires Agrees(render, GuideSectionLines)
    ensures out == lines + FlatMap(sections, render)
  {
    out := lines;
    var i := 0;
    while i < |sections|
      invariant 0 <= i <= |sections|
      invariant out == lines + FlatMap(sections[..i], render)
    {
      out := AppendGuideSection(out, sections[i], render);
      FlatMapExtend(lines, sections, i, render);
      i := i + 1;
    }
    assert sections[..i] == sections;
  }

  method InstructorGuideToMarkdown(guide: InstructorGuide) returns (md: string)
    requires GuideListsAreLists(guide)
    ensures md == GuideMarkdown(guide)
  {
    var lines := AppendGuideSections(["# Instructor Guide", ""], guide.sections, GuideSectionLines);
    md := Strip(Join(lines, "\n"));
  }

  method AppendSegment(lines: seq<string>, idx: nat, segment: VideoSegment, ghost render: (nat, VideoSegment) -> seq<string>)
    returns (out: seq<string>)
    requires segment.narration.Str? && segment.screenDirections.Str? && Agrees2(render, SegmentLines)
    ensures out == lines + render(idx, segment)
  {
    ghost var spec := SegmentLines;
    assert render(idx, segment) == spec(idx, segment);
    out := lines + ["## Segment " + NatDecimal(idx) + ": " + PyStr(segment.title)];
    out := out + ["### Narration"];
    out := out + [segment.narration.s];
    out := out + [""];
    out := out + ["### Screen Directions"];
    out := out + [segment.screenDirections.s];
    out := out + [""];
    if Truthy(segment.approxDurationSeconds) {
      out := out + ["**Approx Duration:** " + PyStr(segment.approxDurationSeconds) + " seconds"];
    }
    out := out + [""];
  }

  /** `for idx, segment in enumerate(script.segments, start=1):` */
  method AppendSegments(lines: seq<string>, segments: seq<VideoSegment>, ghost render: (nat, VideoSegment) -> seq<string>)
    returns (out: seq<string>)
    requires forall k :: 0 <= k < |segments| ==> segments[k].narration.Str? && segments[k].screenDirections.Str?
    requires Agrees2(render, SegmentLines)
    ensures out == lines + Enumerated(segments, render)
  {
    out := lines;
    var i := 0;
    while i < |segments|
      invariant 0 <= i <= |segments|
      invariant out == lines + Enumerated(segments[..i], render)
    {
      out := AppendSegment(out, i + 1, segments[i], render);
      EnumeratedSnoc(segments, i, render);
      AppendAssoc(lines, Enumerated(segments[..i], render), render(i + 1, segments[i]));
      i := i + 1;
    }
    assert segments[..i] == segments;
  }

  method VideoScriptToMarkdown(script: VideoScript) returns (md: string)
    requires ScriptTextsAreStrings(script)
    ensures md == ScriptMarkdown(script)
  {
    var lines := AppendSegments(["# Video Script", ""], script.segments, SegmentLines);
    md := Strip(Join(lines, "\n"));
  }

  method AppendStep(lines: seq<string>, step: QuickRefStep, ghost render: QuickRefStep -> seq<string>) returns (out: seq<string>)
    requires Agrees(render, StepLines)
    ensures out == lines + render(step)
  {
    ghost var spec := StepLines;
    assert render(step) == spec(step);
    out := lines + ["## Step " + PyStr(step.stepNumber) + ": " + PyStr(step.title)];
    out := out + ["**Action:** " + PyStr(step.action)];
    if Truthy(step.notes) {
      out := out + ["**Notes:** " + PyStr(step.notes)];
    }
    out := out + [""];
  }

  /** `for step in qrg.steps:` */
  method AppendSteps(lines: seq<string>, steps: seq<QuickRefStep>, ghost render: QuickRefStep -> seq<string>)
    returns (out: seq<string>)
    requires Agrees(render, StepLines)
    ensures out == lines + FlatMap(steps, render)
  {
    out := lines;
    var i := 0;
    while i < |steps|
      invariant 0 <= i <= |steps|
      invariant out == lines + FlatMap(steps[..i], render)
    {
      out := AppendStep(out, steps[i], render);
      FlatMapExtend(lines, steps, i, render);
      i := i + 1;
    }
    assert steps[..i] == steps;
  }

  method QuickRefToMarkdown(qrg: QuickReferenceGuide) returns (md: string)
    ensures md == QuickRefMarkdown(qrg)
  {
    var lines := AppendSteps(["# Quick Reference Guide", ""], qrg.steps, StepLines);
    md := Strip(Join(lines, "\n"));
  }

  // ---------------------------------------------------------------------
  // Properties
  // ---------------------------------------------------------------------

  /** An outline with no sections renders as its title heading alone. */
  lemma EmptyOutline(title: Json)
    ensures OutlineMarkdown(ClassOutline(title, [])) == RStrip("# " + PyStr(title))
  {
    var heading := "# " + PyStr(title);
    assert heading[0] == '#';
    assert ["# " + PyStr(title), ""] + FlatMap([], OutlineSectionLines) == [heading, ""];
    HeadingOnly(heading);
  }

  lemma FixedHeading(heading: string)
    requires heading != [] && heading[0] == '#' && !IsSpace(heading[|heading| - 1])
    ensures Strip(Join([heading, ""], "\n")) == heading
  {
    HeadingOnly(heading);
  }

  /** The guide, script and quick reference headings are fixed, with no course title. */
  lemma EmptyArtifacts()
    ensures GuideMarkdown(InstructorGuide([])) == "# Instructor Guide"
    ensures ScriptMarkdown(VideoScript([])) == "# Video Script"
    ensures QuickRefMarkdown(QuickReferenceGuide([])) == "# Quick Reference Guide"
  {
    assert ["# Instructor Guide", ""] + FlatMap([], GuideSectionLines) == ["# Instructor Guide", ""];
    FixedHeading("# Instructor Guide");
    assert ["# Video Script", ""] + SegmentsLines([]) == ["# Video Script", ""];
    FixedHeading("# Video Script");
    assert ["# Quick Reference Guide", ""] + FlatMap([], StepLines) == ["# Quick Reference Guide", ""];
    FixedHeading("# Quick Reference Guide");
  }

  /** Every rendering is stripped: it neither starts nor ends with whitespace. */
  lemma RenderingsAreTrimmed(o: ClassOutline, g: InstructorGuide, v: VideoScript, q: QuickReferenceGuide)
    ensures var md := OutlineMarkdown(o); md == [] || (!IsSpace(md[0]) && !IsSpace(md[|md| - 1]))
    ensures var md := GuideMarkdown(g); md == [] || (!IsSpace(md[0]) && !IsSpace(md[|md| - 1]))
    ensures var md := ScriptMarkdown(v); md == [] || (!IsSpace(md[0]) && !IsSpace(md[|md| - 1]))
    ensures var md := QuickRefMarkdown(q); md == [] || (!IsSpace(md[0]) && !IsSpace(md[|md| - 1]))
  {
    StripTrims(Join(["# " + PyStr(o.title), ""] + FlatMap(o.sections, OutlineSectionLines), "\n"));
    StripTrims(Join(["# Instructor Guide", ""] + FlatMap(g.sections, GuideSectionLines), "\n"));
    StripTrims(Join(["# Video Script", ""] + SegmentsLines(v.segments), "\n"));
    StripTrims(Join(["# Quick Reference Guide", ""] + FlatMap(q.steps, StepLines), "\n"));
  }

  /** A block's own heading occurs in it exactly when the list is non-empty; no other heading does. */
  lemma BlockHeadings(heading: string, other: string, xs: Json)
    requires heading != [] && heading[0] == '#' && other != heading
    ensures heading in Block(heading, xs) <==> Truthy(xs)
    ensures other !in Block(heading, xs) || other == [] || other[0] == '-'
  {
    BulletsStartWith("- ", ListItems(xs));
    if other in Block(heading, xs) && other != [] && other[0] != '-' {
      DiffersAt(other, "- ", 0);
    }
    if Truthy(xs) {
      assert Block(heading, xs)[0] == heading;
    } else {
      assert Block(heading, xs) == [];
    }
  }

  /** The section headings are followed by the Objectives and Subtopics blocks only when those lists are non-empty. */
  lemma OutlineBlocksPresence(s: OutlineSection)
    ensures "### Objectives" in OutlineSectionLines(s)[1..] <==> Truthy(s.objectives)
    ensures "### Subtopics" in OutlineSectionLines(s)[1..] <==> Truthy(s.subtopics)
  {
    var b1 := Block("### Objectives", s.objectives);
    var b2 := Block("### Subtopics", s.subtopics);
    var t := TimeLines("**Duration:**", s.durationMinutes, "minutes");
    var h := ["## " + PyStr(s.title)];
    AppendAssoc(h, b1, b2);
    AppendAssoc(h, b1 + b2, t);
    AppendAssoc(b1, b2, t);
    assert OutlineSectionLines(s) == h + (b1 + b2 + t);
    assert (h + (b1 + b2 + t))[1..] == b1 + b2 + t;
    BlockHeadings("### Objectives", "### Subtopics", s.objectives);
    BlockHeadings("### Subtopics", "### Objectives", s.subtopics);
    assert "### Objectives" !in t && "### Subtopics" !in t;
  }

  /** A line that begins with a markdown heading or bullet character is no labelled value line. */
  lemma NotLabelled(line: string, caption: string)
    requires caption != [] && caption[0] == '*'
    requires line == [] || line[0] == '#' || line[0] == '-'
    ensures !StartsWith(line, caption)
  {
    if line != [] {
      DiffersAt(line, caption, 0);
    }
  }

  /** A duration line appears exactly when the duration is truthy: `0` and `None` are both left out. */
  lemma OutlineDurationRule(s: OutlineSection)
    ensures (exists line :: line in OutlineSectionLines(s) && StartsWith(line, "**Duration:**")) <==> Truthy(s.durationMinutes)
  {
    var b1 := Block("### Objectives", s.objectives);
    var b2 := Block("### Subtopics", s.subtopics);
    var caption := "**Duration:**";
    BulletsStartWith("- ", ListItems(s.objectives));
    BulletsStartWith("- ", ListItems(s.subtopics));
    forall line | line in ["## " + PyStr(s.title)] + b1 + b2
      ensures !StartsWith(line, caption)
    {
      if line in Bullets("- ", ListItems(s.objectives)) || line in Bullets("- ", ListItems(s.subtopics)) {
        assert line[..2] == "- ";
      }
      NotLabelled(line, caption);
    }
    if Truthy(s.durationMinutes) {
      var rest := " " + PyStr(s.durationMinutes) + " " + "minutes";
      var line := caption + " " + PyStr(s.durationMinutes) + " " + "minutes";
      assert line == caption + rest;
      StartsWithConcat(caption, rest);
      var pre := ["## " + PyStr(s.title)] + b1 + b2;
      assert OutlineSectionLines(s) == pre + [line, ""];
      assert OutlineSectionLines(s)[|pre|] == line;
    }
  }

  /** The same rule for the estimated time of an instructor section. */
  lemma GuideTimeRule(s: InstructorSection)
    ensures (exists line :: line in GuideSectionLines(s) && StartsWith(line, "**Estimated Time:**")) <==> Truthy(s.estimatedTimeMinutes)
  {
    var b1 := Block("### Learning Objectives", s.learningObjectives);
    var b2 := Block("### Talking Points", s.talkingPoints);
    var b3 := Block("### Suggested Activities", s.suggestedActivities);
    var caption := "**Estimated Time:**";
    BulletsStartWith("- ", ListItems(s.learningObjectives));
    BulletsStartWith("- ", ListItems(s.talkingPoints));
    BulletsStartWith("- ", ListItems(s.suggestedActivities));
    forall line | line in ["## " + PyStr(s.title)] + b1 + b2 + b3
      ensures !StartsWith(line, caption)
    {
      if line in Bullets("- ", ListItems(s.learningObjectives)) || line in Bullets("- ", ListItems(s.talkingPoints))
         || line in Bullets("- ", ListItems(s.suggestedActivities)) {
        assert line[..2] == "- ";
      }
      NotLabelled(line, caption);
    }
    if Truthy(s.estimatedTimeMinutes) {
      var rest := " " + PyStr(s.estimatedTimeMinutes) + " " + "minutes";
      assert caption + " " + PyStr(s.estimatedTimeMinutes) + " " + "minutes" == caption + rest;
      StartsWithConcat(caption, rest);
      var pre := ["## " + PyStr(s.title)] + b1 + b2 + b3;
      assert GuideSectionLines(s) == pre + [caption + rest, ""];
      assert GuideSectionLines(s)[|pre|] == caption + rest;
    }
  }

  /**
   * Segment `k` (from 1) is headed `"## Segment {k}: {title}"`, and the
   * Narration and Screen Directions headings are emitted with their texts
   * even when those are empty.
   */
  lemma SegmentLayout(idx: nat, s: VideoSegment)
    ensures SegmentLines(idx, s)[..7] ==
      ["## Segment " + NatDecimal(idx) + ": " + PyStr(s.title), "### Narration", PyStr(s.narration), "",
       "### Screen Directions", PyStr(s.screenDirections), ""]
    ensures |SegmentLines(idx, s)| == if Truthy(s.approxDurationSeconds) then 9 else 8
  {
  }

  /** Every segment's heading carries its 1-based position. */
  lemma {:induction false} SegmentNumbering(segs: seq<VideoSegment>)
    ensures forall k :: 0 <= k < |segs| ==>
      "## Segment " + NatDecimal(k + 1) + ": " + PyStr(segs[k].title) in SegmentsLines(segs)
  {
    if segs != [] {
      var init := segs[..|segs| - 1];
      SegmentNumbering(init);
      assert SegmentsLines(segs) == SegmentsLines(init) + SegmentLines(|segs|, segs[|segs| - 1]);
      forall k | 0 <= k < |segs|
        ensures "## Segment " + NatDecimal(k + 1) + ": " + PyStr(segs[k].title) in SegmentsLines(segs)
      {
        if k < |init| {
          assert init[k] == segs[k];
        } else {
          assert SegmentLines(|segs|, segs[k])[0] in SegmentsLines(segs);
        }
      }
    }
  }

  /** A step always has its heading and action line; a notes line appears exactly when the notes are truthy. */
  lemma StepLayout(s: QuickRefStep)
    ensures StepLines(s)[0] == "## Step " + PyStr(s.stepNumber) + ": " + PyStr(s.title)
    ensures StepLines(s)[1] == "**Action:** " + PyStr(s.action)
    ensures (exists line :: line in StepLines(s) && StartsWith(line, "**Notes:**")) <==> Truthy(s.notes)
  {
    var caption := "**Notes:**";
    DiffersAt(StepLines(s)[0], caption, 0);
    DiffersAt(StepLines(s)[1], caption, 2);
    if Truthy(s.notes) {
      StartsWithConcat(caption, " " + PyStr(s.notes));
      assert "**Notes:** " + PyStr(s.notes) == caption + (" " + PyStr(s.notes));
      assert StepLines(s)[2] == caption + (" " + PyStr(s.notes));
    } else {
      assert StepLines(s) == [StepLines(s)[0], StepLines(s)[1], ""];
    }
  }
}
