/**
 * generator/markdown_export.py: the second set of markdown exporters for
 * the generator records.  Lines are joined with "\n" and not stripped;
 * every section, segment and step heading starts with "\n" so a blank line
 * precedes it; a duration is written whenever it is not `None`, so `0` is
 * written too.  Like generator/markdown_utils.py, the renderers ask for
 * list fields that are lists and texts that are strings.
 */
module MarkdownExport {
  import opened Wrappers
  import opened PyText
  import opened Json
  import opened GeneratorModels
  import opened Lines
  import MarkdownUtils

  /** `if xs: lines.append(caption); for x in xs: lines.append(f"{bullet}{x}")` */
  function Block(caption: string, bullet: string, xs: Json): seq<string>
  {
    if Truthy(xs) then [caption] + Bullets(bullet, MarkdownUtils.ListItems(xs)) else []
  }

  /** `if value is not None: lines.append(f"{caption} {value} {unit}")` */
  function ValueLine(caption: string, value: Json, unit: string): seq<string>
  {
    if value.Null? then [] else [caption + " " + PyStr(value) + " " + unit]
  }

  function OutlineSectionLines(s: OutlineSection): seq<string>
  {
    ["\n## " + PyStr(s.title)] + Block("**Objectives:**", "- ", s.objectives)
    + Block("**Subtopics:**", "  - ", s.subtopics) + ValueLine("**Duration:**", s.durationMinutes, "minutes")
  }

  function OutlineMarkdown(o: ClassOutline): string
  {
    Join(["# " + PyStr(o.title)] + FlatMap(o.sections, OutlineSectionLines), "\n")
  }

  function GuideSectionLines(s: InstructorSection): seq<string>
  {
    ["\n## " + PyStr(s.title)] + Block("**Learning Objectives:**", "- ", s.learningObjectives)
    + Block("**Talking Points:**", "- ", s.talkingPoints) + Block("**Suggested Activities:**", "- ", s.suggestedActivities)
    + ValueLine("**Estimated Time:**", s.estimatedTimeMinutes, "minutes")
  }

  function GuideMarkdown(g: InstructorGuide): string
  {
    Join(["# Instructor Guide"] + FlatMap(g.sections, GuideSectionLines), "\n")
  }

  function SegmentLines(idx: nat, s: VideoSegment): seq<string>
  {
    ["\n## Segment " + NatDecimal(idx) + ": " + PyStr(s.title),
     "**Narration:**", PyStr(s.narration), "**Screen Directions:**", PyStr(s.screenDirections)]
    + ValueLine("**Approx Duration:**", s.approxDurationSeconds, "seconds")
  }

  function SegmentsLines(segs: seq<VideoSegment>): seq<string>
  {
    Enumerated(segs, SegmentLines)
  }

  function ScriptMarkdown(v: VideoScript): string
  {
    Join(["# Video Script"] + SegmentsLines(v.segments), "\n")
  }

  function StepLines(s: QuickRefStep): seq<string>
  {
    ["\n## Step " + PyStr(s.stepNumber) + ": " + PyStr(s.title), "**Action:** " + PyStr(s.action)]
    + (if Truthy(s.notes) then ["**Notes:** " + PyStr(s.notes)] else [])
  }

  function QuickRefMarkdown(q: QuickReferenceGuide): string
  {
    Join(["# Quick Reference Guide"] + FlatMap(q.steps, StepLines), "\n")
  }

  // ---------------------------------------------------------------------
  // The renderers as written
  // ---------------------------------------------------------------------

  method AppendBlock(lines: seq<string>, caption: string, bullet: string, xs: Json) returns (out: seq<string>)
    requires xs.Arr?
    ensures out == lines + Block(caption, bullet, xs)
  {
    out := lines;
    if Truthy(xs) {
      out := out + [caption];
      out := AppendBullets(out, bullet, xs.items);
    }
  }

  method AppendValue(lines: seq<string>, caption: string, value: Json, unit: string) returns (out: seq<string>)
    ensures out == lines + ValueLine(caption, value, unit)
  {
    out := lines;
    if !value.Null? {
      out := out + [caption + " " + PyStr(value) + " " + unit];
    }
  }

  method AppendOutlineSection(lines: seq<string>, section: OutlineSection, ghost render: OutlineSection -> seq<string>)
    returns (out: seq<string>)
    requires section.objectives.Arr? && section.subtopics.Arr? && Agrees(render, OutlineSectionLines)
    ensures out == lines + render(section)
  {
    ghost var spec := OutlineSectionLines;
    assert render(section) == spec(section);
    var l1 := lines + ["\n## " + PyStr(section.title)];
    var l2 := AppendBlock(l1, "**Objectives:**", "- ", section.objectives);
    var l3 := AppendBlock(l2, "**Subtopics:**", "  - ", section.subtopics);
    out := AppendValue(l3, "**Duration:**", section.durationMinutes, "minutes");
  }

  /** `for section in outline.sections:` */
  method AppendOutlineSections(lines: seq<string>, sections: seq<OutlineSection>, ghost render: OutlineSection -> seq<string>)
    returns (out: seq<string>)
    requires forall k :: 0 <= k < |sections| ==> sections[k].objectives.Arr? && sections[k].subtopics.Arr?
    requires Agrees(render, OutlineSectionLines)
    ensures out == lines + FlatMap(sections, render)
  {
    out := lines;
    var i := 0;
    while i < |sections|
      invariant 0 <= i <= |sections|
      invariant out == lines + FlatMap(sections[..i], render)
    {
      out := AppendOutlineSection(out, sections[i], render);
      FlatMapExtend(lines, sections, i, render);
      i := i + 1;
    }
    assert sections[..i] == sections;
  }

  method OutlineToMarkdown(outline: ClassOutline) returns (md: string)
    requires OutlineListsAreLists(outline)
    ensures md == OutlineMarkdown(outline)
  {
    var lines := AppendOutlineSections(["# " + PyStr(outline.title)], outline.sections, OutlineSectionLines);
    md := Join(lines, "\n");
  }

  method AppendGuideSection(lines: seq<string>, section: InstructorSection, ghost render: InstructorSection -> seq<string>)
    returns (out: seq<string>)
    requires section.learningObjectives.Arr? && section.talkingPoints.Arr? && section.suggestedActivities.Arr?
    requires Agrees(render, GuideSectionLines)
    ensures out == lines + render(section)
  {
    ghost var spec := GuideSectionLines;
    assert render(section) == spec(section);
    var l1 := lines + ["\n## " + PyStr(section.title)];
    var l2 := AppendBlock(l1, "**Learning Objectives:**", "- ", section.learningObjectives);
    var l3 := AppendBlock(l2, "**Talking Points:**", "- ", section.talkingPoints);
    var l4 := AppendBlock(l3, "**Suggested Activities:**", "- ", section.suggestedActivities);
    out := AppendValue(l4, "**Estimated Time:**", section.estimatedTimeMinutes, "minutes");
    ghost var h := ["\n## " + PyStr(section.title)];
    ghost var b1 := Block("**Learning Objectives:**", "- ", section.learningObjectives);
    ghost var b2 := Block("**Talking Points:**", "- ", section.talkingPoints);
    ghost var b3 := Block("**Suggested Activities:**", "- ", section.suggestedActivities);
    ghost var t := ValueLine("**Estimated Time:**", section.estimatedTimeMinutes, "minutes");
    AppendAssoc(lines, h, b1);
    AppendAssoc(lines, h + b1, b2);
    AppendAssoc(lines, h + b1 + b2, b3);
    AppendAssoc(lines, h + b1 + b2 + b3, t);
  }

  /** `for section in guide.sections:` */
  method AppendGuideSections(lines: seq<string>, sections: seq<InstructorSection>, ghost render: InstructorSection -> seq<string>)
    returns (out: seq<string>)
    requires forall k :: 0 <= k < |sections| ==>
      sections[k].learningObjectives.Arr? && sections[k].talkingPoints.Arr? && sections[k].suggestedActivities.Arr?
    requires Agrees(render, GuideSectionLines)
    ensures out == lines + FlatMap(sections, render)
  {
    out := lines;
    var i := 0;
    while i < |sections|
      invariant 0 <= i <= |sections|
      invariant out == lines + FlatMap(sections[..i], render)
    {
      out := AppendGuideSection(out, sections[i], render);
      FlatMapExtend(lines, sections, i, render);
      i := i + 1;
    }
    assert sections[..i] == sections;
  }

  method InstructorGuideToMarkdown(guide: InstructorGuide) returns (md: string)
    requires GuideListsAreLists(guide)
    ensures md == GuideMarkdown(guide)
  {
    var lines := AppendGuideSections(["# Instructor Guide"], guide.sections, GuideSectionLines);
    md := Join(lines, "\n");
  }

  method AppendSegment(lines: seq<string>, idx: nat, segment: VideoSegment, ghost render: (nat, VideoSegment) -> seq<string>)
    returns (out: seq<string>)
    requires segment.narration.Str? && segment.screenDirections.Str? && Agrees2(render, SegmentLines)
    ensures out == lines + render(idx, segment)
  {
    ghost var spec := SegmentLines;
    assert render(idx, segment) == spec(idx, segment);
    out := lines + ["\n## Segment " + NatDecimal(idx) + ": " + PyStr(segment.title)];
    out := out + ["**Narration:**"];
    out := out + [segment.narration.s];
    out := out + ["**Screen Directions:**"];
    out := out + [segment.screenDirections.s];
    out := AppendValue(out, "**Approx Duration:**", segment.approxDurationSeconds, "seconds");
  }

  /** `for idx, segment in enumerate(script.segments, start=1):` */
  method AppendSegments(lines: seq<string>, segments: seq<VideoSegment>, ghost render: (nat, VideoSegment) -> seq<string>)
    returns (out: seq<string>)
    requires forall k :: 0 <= k < |segments| ==> segments[k].narration.Str? && segments[k].screenDirections.Str?
    requires Agrees2(render, SegmentLines)
    ensures out == lines + Enumerated(segments, render)
  {
    out := lines;
    var i := 0;
    while i < |segments|
      invariant 0 <= i <= |segments|
      invariant out == lines + Enumerated(segments[..i], render)
    {
      out := AppendSegment(out, i + 1, segments[i], render);
      EnumeratedSnoc(segments, i, render);
      AppendAssoc(lines, Enumerated(segments[..i], render), render(i + 1, segments[i]));
      i := i + 1;
    }
    assert segments[..i] == segments;
  }

  method VideoScriptToMarkdown(script: VideoScript) returns (md: string)
    requires ScriptTextsAreStrings(script)
    ensures md == ScriptMarkdown(script)
  {
    var lines := AppendSegments(["# Video Script"], script.segments, SegmentLines);
    md := Join(lines, "\n");
  }

  method AppendStep(lines: seq<string>, step: QuickRefStep, ghost render: QuickRefStep -> seq<string>) returns (out: seq<string>)
    requires Agrees(render, StepLines)
    ensures out == lines + render(step)
  {
    ghost var spec := StepLines;
    assert render(step) == spec(step);
    out := lines + ["\n## Step " + PyStr(step.stepNumber) + ": " + PyStr(step.title)];
    out := out + ["**Action:** " + PyStr(step.action)];
    if Truthy(step.notes) {
      out := out + ["**Notes:** " + PyStr(step.notes)];
    }
  }

  /** `for step in qrg.steps:` */
  method AppendSteps(lines: seq<string>, steps: seq<QuickRefStep>, ghost render: QuickRefStep -> seq<string>)
    returns (out: seq<string>)
    requires Agrees(render, StepLines)
    ensures out == lines + FlatMap(steps, render)
  {
    out := lines;
    var i := 0;
    while i < |steps|
      invariant 0 <= i <= |steps|
      invariant out == lines + FlatMap(steps[..i], render)
    {
      out := AppendStep(out, steps[i], render);
      FlatMapExtend(lines, steps, i, render);
      i := i + 1;
    }
    assert steps[..i] == steps;
  }

  method QuickRefToMarkdown(qrg: QuickReferenceGuide) returns (md: string)
    ensures md == QuickRefMarkdown(qrg)
  {
    var lines := AppendSteps(["# Quick Reference Guide"], qrg.steps, StepLines);
    md := Join(lines, "\n");
  }

  // ---------------------------------------------------------------------
  // Properties
  // ---------------------------------------------------------------------

  /** With nothing to list, each rendering is exactly its heading line: nothing is stripped or added. */
  lemma EmptyArtifacts(title: Json)
    ensures OutlineMarkdown(ClassOutline(title, [])) == "# " + PyStr(title)
    ensures GuideMarkdown(InstructorGuide([])) == "# Instructor Guide"
    ensures ScriptMarkdown(VideoScript([])) == "# Video Script"
    ensures QuickRefMarkdown(QuickReferenceGuide([])) == "# Quick Reference Guide"
  {
    assert ["# " + PyStr(title)] + FlatMap([], OutlineSectionLines) == ["# " + PyStr(title)];
    assert ["# Instructor Guide"] + FlatMap([], GuideSectionLines) == ["# Instructor Guide"];
    assert ["# Video Script"] + SegmentsLines([]) == ["# Video Script"];
    assert ["# Quick Reference Guide"] + FlatMap([], StepLines) == ["# Quick Reference Guide"];
  }

  /** Every section heading line starts with a newline, so once joined a blank line precedes it. */
  lemma SectionHeadingsFollowBlankLine(o: ClassOutline)
    ensures forall k :: 0 <= k < |o.sections| ==> "\n## " + PyStr(o.sections[k].title) in FlatMap(o.sections, OutlineSectionLines)
  {
    forall k | 0 <= k < |o.sections|
      ensures "\n## " + PyStr(o.sections[k].title) in FlatMap(o.sections, OutlineSectionLines)
    {
      assert OutlineSectionLines(o.sections[k])[0] == "\n## " + PyStr(o.sections[k].title);
      FlatMapContains(o.sections, OutlineSectionLines, k, "\n## " + PyStr(o.sections[k].title));
    }
  }

  /** A block's caption occurs in it exactly when the list is non-empty, and it holds no other caption. */
  lemma BlockCaptions(caption: string, bullet: string, other: string, xs: Json)
    requires caption != [] && caption[0] == '*' && bullet != [] && bullet[0] != '*' && other != [] && other[0] == '*'
    requires other != caption
    ensures caption in Block(caption, bullet, xs) <==> Truthy(xs)
    ensures other !in Block(caption, bullet, xs)
  {
    BulletsStartWith(bullet, MarkdownUtils.ListItems(xs));
    if Truthy(xs) {
      assert Block(caption, bullet, xs)[0] == caption;
    }
  }

  /** Objectives use `- ` bullets and subtopics `  - ` bullets, each under its caption only when non-empty. */
  lemma OutlineBlocks(s: OutlineSection)
    ensures "**Objectives:**" in OutlineSectionLines(s) <==> Truthy(s.objectives)
    ensures "**Subtopics:**" in OutlineSectionLines(s) <==> Truthy(s.subtopics)
    ensures forall x :: x in MarkdownUtils.ListItems(s.objectives) && Truthy(s.objectives) ==> "- " + PyStr(x) in OutlineSectionLines(s)
    ensures forall x :: x in MarkdownUtils.ListItems(s.subtopics) && Truthy(s.subtopics) ==> "  - " + PyStr(x) in OutlineSectionLines(s)
  {
    var h := ["\n## " + PyStr(s.title)];
    var b1 := Block("**Objectives:**", "- ", s.objectives);
    var b2 := Block("**Subtopics:**", "  - ", s.subtopics);
    var t := ValueLine("**Duration:**", s.durationMinutes, "minutes");
    BlockCaptions("**Objectives:**", "- ", "**Subtopics:**", s.objectives);
    BlockCaptions("**Subtopics:**", "  - ", "**Objectives:**", s.subtopics);
    assert "**Objectives:**" != h[0] && "**Subtopics:**" != h[0];
    if t != [] {
      assert t[0][2] == 'D';
      assert "**Objectives:**" != t[0] && "**Subtopics:**" != t[0];
    }
    forall x | x in MarkdownUtils.ListItems(s.objectives) && Truthy(s.objectives)
      ensures "- " + PyStr(x) in OutlineSectionLines(s)
    {
      var items := MarkdownUtils.ListItems(s.objectives);
      var k :| 0 <= k < |items| && items[k] == x;
      assert Bullets("- ", items)[k] == "- " + PyStr(x);
    }
    forall x | x in MarkdownUtils.ListItems(s.subtopics) && Truthy(s.subtopics)
      ensures "  - " + PyStr(x) in OutlineSectionLines(s)
    {
      var items := MarkdownUtils.ListItems(s.subtopics);
      var k :| 0 <= k < |items| && items[k] == x;
      assert Bullets("  - ", items)[k] == "  - " + PyStr(x);
    }
  }

  /** A duration line appears exactly when the duration is not `None`, so a duration of `0` is written. */
  lemma OutlineDurationRule(s: OutlineSection)
    ensures (exists line :: line in OutlineSectionLines(s) && StartsWith(line, "**Duration:**")) <==> !s.durationMinutes.Null?
    ensures s.durationMinutes == Int(0) ==> "**Duration:** 0 minutes" in OutlineSectionLines(s)
  {
    var caption := "**Duration:**";
    var h := ["\n## " + PyStr(s.title)];
    var b1 := Block("**Objectives:**", "- ", s.objectives);
    var b2 := Block("**Subtopics:**", "  - ", s.subtopics);
    BulletsStartWith("- ", MarkdownUtils.ListItems(s.objectives));
    BulletsStartWith("  - ", MarkdownUtils.ListItems(s.subtopics));
    forall line | line in h + b1 + b2
      ensures !StartsWith(line, caption)
    {
      if line in Bullets("- ", MarkdownUtils.ListItems(s.objectives)) {
        assert line[..2] == "- ";
        DiffersAt(line, caption, 0);
      } else if line in Bullets("  - ", MarkdownUtils.ListItems(s.subtopics)) {
        assert line[..4] == "  - ";
        DiffersAt(line, caption, 0);
      } else if line == h[0] {
        DiffersAt(line, caption, 0);
      } else {
        assert line == "**Objectives:**" || line == "**Subtopics:**";
        DiffersAt(line, caption, 2);
      }
    }
    if !s.durationMinutes.Null? {
      var rest := " " + PyStr(s.durationMinutes) + " " + "minutes";
      var line := caption + " " + PyStr(s.durationMinutes) + " " + "minutes";
      assert line == caption + rest;
      StartsWithConcat(caption, rest);
      assert OutlineSectionLines(s) == h + b1 + b2 + [line];
      assert OutlineSectionLines(s)[|h + b1 + b2|] == line;
      if s.durationMinutes == Int(0) {
        assert PyStr(Int(0)) == "0";
        assert line == "**Duration:** 0 minutes";
      }
    }
  }

  /** Segments are numbered from 1. */
  lemma {:induction false} SegmentNumbering(segs: seq<VideoSegment>)
    ensures forall k :: 0 <= k < |segs| ==>
      "\n## Segment " + NatDecimal(k + 1) + ": " + PyStr(segs[k].title) in SegmentsLines(segs)
  {
    if segs != [] {
      var init := segs[..|segs| - 1];
      SegmentNumbering(init);
      forall k | 0 <= k < |segs|
        ensures "\n## Segment " + NatDecimal(k + 1) + ": " + PyStr(segs[k].title) in SegmentsLines(segs)
      {
        if k < |init| {
          assert init[k] == segs[k];
        } else {
          assert SegmentLines(|segs|, segs[k])[0] in SegmentsLines(segs);
        }
      }
    }
  }

  /** The narration and screen-direction captions and texts are always written, even when empty. */
  lemma SegmentTexts(idx: nat, s: VideoSegment)
    ensures SegmentLines(idx, s)[1..5] == ["**Narration:**", PyStr(s.narration), "**Screen Directions:**", PyStr(s.screenDirections)]
  {
  }

  /** The action line is always written; a notes line exactly when the notes are truthy. */
  lemma StepLayout(s: QuickRefStep)
    ensures StepLines(s)[1] == "**Action:** " + PyStr(s.action)
    ensures (exists line :: line in StepLines(s) && StartsWith(line, "**Notes:**")) <==> Truthy(s.notes)
  {
    var caption := "**Notes:**";
    DiffersAt(StepLines(s)[0], caption, 0);
    DiffersAt(StepLines(s)[1], caption, 2);
    if Truthy(s.notes) {
      StartsWithConcat(caption, " " + PyStr(s.notes));
      assert StepLines(s)[2] == caption + (" " + PyStr(s.notes));
    } else {
      assert StepLines(s) == [StepLines(s)[0], StepLines(s)[1]];
    }
  }

  /** The two exporters disagree on a zero duration: this one writes it, generator/markdown_utils.py leaves it out. */
  lemma ZeroDurationDiffers(s: OutlineSection)
    requires s.durationMinutes == Int(0)
    ensures "**Duration:** 0 minutes" in OutlineSectionLines(s)
    ensures forall line :: line in MarkdownUtils.OutlineSectionLines(s) ==> !StartsWith(line, "**Duration:**")
  {
    OutlineDurationRule(s);
    MarkdownUtils.OutlineDurationRule(s);
  }
}
