/**
 * What the dict-based renderers of streamlit_app.py promise: defaults for
 * missing keys, the errors a wrongly shaped value raises, and agreement with
 * backend/services/formatting.py on the JSON form of a backend record.
 */
module StreamlitFacts {
  import opened Wrappers
  import opened PyText
  import opened Json
  import opened Lines
  import opened StreamlitMarkdown
  import B = BackendTypes
  import F = Formatting

  // ---------------------------------------------------------------------
  // The JSON form of a backend record: every field under its own name,
  // `None` as null, lists of strings as arrays of strings
  // ---------------------------------------------------------------------

  function Dicts<A>(recs: seq<A>, toJson: A -> Json): (r: seq<Json>)
    ensures |r| == |recs| && forall k :: 0 <= k < |recs| ==> r[k] == toJson(recs[k])
  {
    seq(|recs|, k requires 0 <= k < |recs| => toJson(recs[k]))
  }

  function IntOrNull(v: Option<int>): Json
  {
    if v.Some? then Int(v.value) else Null
  }

  function StrOrNull(v: Option<string>): Json
  {
    if v.Some? then Str(v.value) else Null
  }

  function OutlineSectionJson(s: B.ClassOutlineSection): Json
  {
    Obj([("title", Str(s.title)), ("objectives", Strs(s.objectives)), ("durationMinutes", IntOrNull(s.durationMinutes))])
  }

  function OutlineJson(o: B.ClassOutline): Json
  {
    Obj([("title", Str(o.title)), ("sections", Arr(Dicts(o.sections, OutlineSectionJson)))])
  }

  function GuideSectionJson(s: B.InstructorGuideSection): Json
  {
    Obj([("title", Str(s.title)), ("learningObjectives", Strs(s.learningObjectives)),
         ("talkingPoints", Strs(s.talkingPoints)), ("suggestedActivities", Strs(s.suggestedActivities)),
         ("timingMinutes", IntOrNull(s.timingMinutes))])
  }

  function GuideJson(g: B.InstructorGuide): Json
  {
    Obj([("courseTitle", Str(g.courseTitle)), ("sections", Arr(Dicts(g.sections, GuideSectionJson)))])
  }

  function SegmentJson(s: B.VideoScriptSegment): Json
  {
    Obj([("title", Str(s.title)), ("narration", Str(s.narration)), ("screenDirections", Str(s.screenDirections)),
         ("durationSeconds", IntOrNull(s.durationSeconds))])
  }

  function VideoJson(v: B.VideoScript): Json
  {
    Obj([("courseTitle", Str(v.courseTitle)), ("segments", Arr(Dicts(v.segments, SegmentJson)))])
  }

  function StepJson(s: B.QuickReferenceStep): Json
  {
    Obj([("stepNumber", Int(s.stepNumber)), ("title", Str(s.title)), ("action", Str(s.action)),
         ("notes", StrOrNull(s.notes))])
  }

  function QrgJson(q: B.QuickReferenceGuide): Json
  {
    Obj([("courseTitle", Str(q.courseTitle)), ("steps", Arr(Dicts(q.steps, StepJson)))])
  }

  // ---------------------------------------------------------------------
  // Agreement with backend/services/formatting.py
  // ---------------------------------------------------------------------

  lemma PyStrInt(n: int)
    ensures PyStr(Int(n)) == Decimal(n)
  {
  }

  lemma BulletsOfStrs(prefix: string, xs: seq<string>)
    ensures Bullets(prefix, Strs(xs).items) == Prefixed(prefix, xs)
  {
    assert forall k :: 0 <= k < |xs| ==> PyStr(Strs(xs).items[k]) == xs[k];
  }

  lemma LabelledAgrees(caption: string, xs: seq<string>)
    ensures Labelled(caption, Or(Strs(xs), Arr([]))) == Ok(F.Labelled((caption, xs)))
  {
    if xs != [] {
      BulletsOfStrs("- ", xs);
    }
  }

  /** A loop over the JSON forms of records gives the blocks of the records, when each item's block does. */
  lemma {:induction false} FlatMapRForms<A, U>(recs: seq<A>, toJson: A -> Json, f: Json -> Result<seq<U>>, g: A -> seq<U>)
    requires forall a :: f(toJson(a)) == Ok(g(a))
    ensures FlatMapR(Dicts(recs, toJson), f) == Ok(FlatMap(recs, g))
    decreases |recs|
  {
    if recs != [] {
      var init := recs[..|recs| - 1];
      var ds := Dicts(recs, toJson);
      assert ds[..|ds| - 1] == Dicts(init, toJson);
      FlatMapRForms(init, toJson, f, g);
    }
  }

  lemma OutlineSectionAgrees(s: B.ClassOutlineSection)
    ensures OutlineSectionLines(OutlineSectionJson(s)) == Ok(F.OutlineSectionLines(s))
  {
    var j := OutlineSectionJson(s);
    assert Field(j, "title", Str("Section")) == Str(s.title);
    LookupAt(j.members, 1, "objectives");
    LookupAt(j.members, 2, "durationMinutes");
    LabelledAgrees("Objectives", s.objectives);
    var h := ["## " + s.title];
    var l := F.Labelled(("Objectives", s.objectives));
    var d := if F.Set(s.durationMinutes) then ["_Duration: " + Decimal(s.durationMinutes.value) + " minutes_"] else [];
    assert OutlineSectionLines(j) == Ok(h + l + d);
  }

  lemma OutlineItemsAgree(items: seq<B.ClassOutlineSection>)
    ensures FlatMapR(Dicts(items, OutlineSectionJson), OutlineSectionLines) == Ok(FlatMap(items, F.OutlineSectionLines))
  {
    forall s: B.ClassOutlineSection
      ensures OutlineSectionLines(OutlineSectionJson(s)) == Ok(F.OutlineSectionLines(s))
    {
      OutlineSectionAgrees(s);
    }
    FlatMapRForms(items, OutlineSectionJson, OutlineSectionLines, F.OutlineSectionLines);
  }

  /** On the JSON form of an outline, the dict renderer writes what `formatting.outline_to_md` writes. */
  lemma OutlineAgrees(o: B.ClassOutline)
    ensures OutlineMd(OutlineJson(o)) == Ok(F.OutlineToMd(o))
  {
    OutlineItemsAgree(o.sections);
    var j := OutlineJson(o);
    LookupAt(j.members, 1, "sections");
    assert ForEach(Field(j, "sections", Arr([])), OutlineSectionLines) == Ok(FlatMap(o.sections, F.OutlineSectionLines));
  }

  /** Each labelled list of a section's JSON form renders as `formatting` renders it. */
  lemma GuideEntryAgrees(s: B.InstructorGuideSection, i: nat)
    requires i < 3
    ensures GuideEntry(GuideSectionJson(s), GuideKeys[i]) == Ok(F.Labelled(F.GuideEntries(s)[i]))
  {
    var j := GuideSectionJson(s);
    var entry := F.GuideEntries(s)[i];
    LookupAt(j.members, i + 1, GuideKeys[i].1);
    assert Field(j, GuideKeys[i].1, Arr([])) == Strs(entry.1);
    LabelledAgrees(GuideKeys[i].0, entry.1);
  }

  /** One more key whose block renders extends the concatenation by that block. */
  lemma GuideEntriesStep(j: Json, keys: seq<(string, string)>, i: nat, acc: seq<string>, l: seq<string>)
    requires j.Obj? && i < |keys|
    requires GuideEntries(j, keys[..i]) == Ok(acc) && GuideEntry(j, keys[i]) == Ok(l)
    ensures GuideEntries(j, keys[..i + 1]) == Ok(acc + l)
  {
    GuideEntriesSnoc(j, keys, i);
  }

  /** The inner loop over three keys concatenates their blocks, for any section dict. */
  lemma GuideEntriesOfThree(j: Json, keys: seq<(string, string)>, l0: seq<string>, l1: seq<string>, l2: seq<string>)
    requires j.Obj? && |keys| == 3
    requires GuideEntry(j, keys[0]) == Ok(l0) && GuideEntry(j, keys[1]) == Ok(l1) && GuideEntry(j, keys[2]) == Ok(l2)
    ensures GuideEntries(j, keys) == Ok(l0 + l1 + l2)
  {
    assert keys[..0] == [];
    GuideEntriesStep(j, keys, 0, [], l0);
    assert [] + l0 == l0;
    GuideEntriesStep(j, keys, 1, l0, l1);
    GuideEntriesStep(j, keys, 2, l0 + l1, l2);
    assert keys[..3] == keys;
  }

  lemma GuideEntriesAgree(s: B.InstructorGuideSection)
    ensures GuideEntries(GuideSectionJson(s), GuideKeys) == Ok(FlatMap(F.GuideEntries(s), F.Labelled))
  {
    var e := F.GuideEntries(s);
    GuideEntryAgrees(s, 0);
    GuideEntryAgrees(s, 1);
    GuideEntryAgrees(s, 2);
    GuideEntriesOfThree(GuideSectionJson(s), GuideKeys, F.Labelled(e[0]), F.Labelled(e[1]), F.Labelled(e[2]));
    F.GuideBlockOrder(s);
  }

  lemma GuideSectionAgrees(s: B.InstructorGuideSection)
    ensures GuideSectionLines(GuideSectionJson(s)) == Ok(F.GuideSectionLines(s))
  {
    var j := GuideSectionJson(s);
    LookupAt(j.members, 4, "timingMinutes");
    GuideEntriesAgree(s);
  }

  lemma InstructorItemsAgree(items: seq<B.InstructorGuideSection>)
    ensures FlatMapR(Dicts(items, GuideSectionJson), GuideSectionLines) == Ok(FlatMap(items, F.GuideSectionLines))
  {
    forall s: B.InstructorGuideSection
      ensures GuideSectionLines(GuideSectionJson(s)) == Ok(F.GuideSectionLines(s))
    {
      GuideSectionAgrees(s);
    }
    FlatMapRForms(items, GuideSectionJson, GuideSectionLines, F.GuideSectionLines);
  }

  /** On the JSON form of an instructor guide, the dict renderer writes what `formatting.instructor_to_md` writes. */
  lemma InstructorAgrees(g: B.InstructorGuide)
    ensures InstructorMd(GuideJson(g)) == Ok(F.InstructorToMd(g))
  {
    InstructorItemsAgree(g.sections);
    var j := GuideJson(g);
    LookupAt(j.members, 1, "sections");
    assert ForEach(Field(j, "sections", Arr([])), GuideSectionLines) == Ok(FlatMap(g.sections, F.GuideSectionLines));
  }

  lemma StepAgrees(s: B.QuickReferenceStep)
    ensures StepLines(StepJson(s)) == Ok(F.StepLines(s))
  {
    var j := StepJson(s);
    LookupAt(j.members, 1, "title");
    LookupAt(j.members, 2, "action");
    LookupAt(j.members, 3, "notes");
    PyStrInt(s.stepNumber);
  }

  lemma QrgItemsAgree(items: seq<B.QuickReferenceStep>)
    ensures FlatMapR(Dicts(items, StepJson), StepLines) == Ok(FlatMap(items, F.StepLines))
  {
    forall s: B.QuickReferenceStep
      ensures StepLines(StepJson(s)) == Ok(F.StepLines(s))
    {
      StepAgrees(s);
    }
    FlatMapRForms(items, StepJson, StepLines, F.StepLines);
  }

  /** On the JSON form of a quick reference guide, the dict renderer writes what `formatting.qrg_to_md` writes. */
  lemma QrgAgrees(q: B.QuickReferenceGuide)
    ensures QrgMd(QrgJson(q)) == Ok(F.QrgToMd(q))
  {
    QrgItemsAgree(q.steps);
    var j := QrgJson(q);
    LookupAt(j.members, 1, "steps");
    assert ForEach(Field(j, "steps", Arr([])), StepLines) == Ok(FlatMap(q.steps, F.StepLines));
  }

  lemma StrsAppend(a: seq<string>, b: seq<string>)
    ensures Strs(a + b).items == Strs(a).items + Strs(b).items
  {
  }

  /** A segment's lines as the values the dict renderer appends. */
  function SegmentValues(s: B.VideoScriptSegment): seq<Json>
  {
    Strs(F.SegmentLines(s)).items
  }

  lemma TextAgrees(caption: string, text: string)
    ensures Strs(if text != [] then [caption, text] else []).items == TextBlock(caption, Str(text))
  {
  }

  lemma SecondsAgree(v: Option<int>)
    ensures Strs(if F.Set(v) then ["_Duration: " + Decimal(v.value) + " seconds_"] else []).items
      == SecondsLine(IntOrNull(v))
  {
    if v.Some? {
      PyStrInt(v.value);
    }
  }

  /** The dict renderer on a segment's JSON form reads back the segment's own fields. */
  lemma SegmentFields(s: B.VideoScriptSegment)
    ensures SegmentLines(SegmentJson(s)) == Ok([Str("## " + s.title)]
      + TextBlock("**Narration**", Str(s.narration)) + TextBlock("**Screen Directions**", Str(s.screenDirections))
      + SecondsLine(IntOrNull(s.durationSeconds)))
  {
    var j := SegmentJson(s);
    LookupAt(j.members, 1, "narration");
    LookupAt(j.members, 2, "screenDirections");
    LookupAt(j.members, 3, "durationSeconds");
  }

  lemma SegmentValuesSplit(s: B.VideoScriptSegment)
    ensures SegmentValues(s) == [Str("## " + s.title)]
      + TextBlock("**Narration**", Str(s.narration)) + TextBlock("**Screen Directions**", Str(s.screenDirections))
      + SecondsLine(IntOrNull(s.durationSeconds))
  {
    var h := ["## " + s.title];
    var n := if s.narration != [] then ["**Narration**", s.narration] else [];
    var d := if s.screenDirections != [] then ["**Screen Directions**", s.screenDirections] else [];
    var t := if F.Set(s.durationSeconds) then ["_Duration: " + Decimal(s.durationSeconds.value) + " seconds_"] else [];
    assert F.SegmentLines(s) == h + n + d + t;
    StrsAppend(h + n + d, t);
    StrsAppend(h + n, d);
    StrsAppend(h, n);
    TextAgrees("**Narration**", s.narration);
    TextAgrees("**Screen Directions**", s.screenDirections);
    SecondsAgree(s.durationSeconds);
  }

  lemma SegmentAgrees(s: B.VideoScriptSegment)
    ensures SegmentLines(SegmentJson(s)) == Ok(SegmentValues(s))
  {
    SegmentFields(s);
    SegmentValuesSplit(s);
  }

  lemma {:induction false} SegmentValuesFlatten(segs: seq<B.VideoScriptSegment>)
    ensures FlatMap(segs, SegmentValues) == Strs(FlatMap(segs, F.SegmentLines)).items
    decreases |segs|
  {
    if segs != [] {
      var init := segs[..|segs| - 1];
      SegmentValuesFlatten(init);
      StrsAppend(FlatMap(init, F.SegmentLines), F.SegmentLines(segs[|segs| - 1]));
    }
  }

  /** Joining lines that are all strings joins their texts. */
  lemma JoinStrs(lines: seq<string>, sep: string)
    ensures JoinLines(Strs(lines).items, sep) == Ok(Join(lines, sep))
  {
    var items := Strs(lines).items;
    assert seq(|items|, k requires 0 <= k < |items| => items[k].s) == lines;
  }

  lemma SegmentsAgree(segs: seq<B.VideoScriptSegment>)
    ensures FlatMapR(Dicts(segs, SegmentJson), SegmentLines) == Ok(Strs(FlatMap(segs, F.SegmentLines)).items)
  {
    forall s: B.VideoScriptSegment
      ensures SegmentLines(SegmentJson(s)) == Ok(SegmentValues(s))
    {
      SegmentAgrees(s);
    }
    FlatMapRForms(segs, SegmentJson, SegmentLines, SegmentValues);
    SegmentValuesFlatten(segs);
  }

  /** On the JSON form of a video script, the dict renderer writes what `formatting.video_to_md` writes. */
  lemma VideoAgrees(v: B.VideoScript)
    ensures VideoMd(VideoJson(v)) == Ok(F.VideoToMd(v))
  {
    SegmentsAgree(v.segments);
    var j := VideoJson(v);
    LookupAt(j.members, 1, "segments");
    var head := "# Video Script: " + v.courseTitle;
    var body := FlatMap(v.segments, F.SegmentLines);
    assert ForEach(Field(j, "segments", Arr([])), SegmentLines) == Ok(Strs(body).items);
    StrsAppend([head], body);
    assert [Str(head)] == Strs([head]).items;
    JoinStrs([head] + body, "\n\n");
  }

  // ---------------------------------------------------------------------
  // Behaviour on dicts of any shape
  // ---------------------------------------------------------------------

  /** With every key missing, each renderer falls back to its default title and writes the heading alone. */
  lemma MissingKeysDefaults()
    ensures OutlineMd(Obj([])) == Ok("# Class Outline")
    ensures InstructorMd(Obj([])) == Ok("# Instructor Guide: ")
    ensures VideoMd(Obj([])) == Ok("# Video Script: ")
    ensures QrgMd(Obj([])) == Ok("# Quick Reference Guide: ")
  {
    var head := [Str("# Video Script: ")];
    assert seq(|head|, k requires 0 <= k < |head| => head[k].s) == ["# Video Script: "];
    assert "# " + "Class Outline" == "# Class Outline";
    assert "# Instructor Guide: " + "" == "# Instructor Guide: ";
    assert "# Video Script: " + "" == "# Video Script: ";
    assert "# Quick Reference Guide: " + "" == "# Quick Reference Guide: ";
  }

  /** An outline section or a segment with every key missing is its default heading alone. */
  lemma MissingSectionKeys()
    ensures OutlineSectionLines(Obj([])) == Ok(["## Section"])
    ensures SegmentLines(Obj([])) == Ok([Str("## Segment")])
  {
    assert "## " + "Section" == "## Section";
    assert "## " + "Segment" == "## Segment";
    assert ["## Section"] + [] + [] == ["## Section"];
    assert [Str("## Segment")] + [] + [] + [] == [Str("## Segment")];
  }

  /** An instructor section with every key missing is its default heading alone. */
  lemma MissingGuideSectionKeys()
    ensures GuideSectionLines(Obj([])) == Ok(["## Section"])
  {
    assert GuideKeys[..0] == [];
    GuideEntriesSnoc(Obj([]), GuideKeys, 0);
    GuideEntriesSnoc(Obj([]), GuideKeys, 1);
    GuideEntriesSnoc(Obj([]), GuideKeys, 2);
    assert GuideKeys[..3] == GuideKeys;
    assert GuideEntry(Obj([]), GuideKeys[0]) == Ok([]);
    assert GuideEntry(Obj([]), GuideKeys[1]) == Ok([]);
    assert GuideEntry(Obj([]), GuideKeys[2]) == Ok([]);
    var none: seq<string> := [];
    assert none + none == none;
    assert GuideEntries(Obj([]), GuideKeys[..1]) == Ok([]);
    assert GuideEntries(Obj([]), GuideKeys[..2]) == Ok([]);
    assert GuideEntries(Obj([]), GuideKeys) == Ok([]);
    assert "## " + "Section" == "## Section";
    assert ["## Section"] + [] + [] == ["## Section"];
  }

  /** A step with every key missing is headed `## Step None: Step`. */
  lemma MissingStepKeys()
    ensures StepLines(Obj([])) == Ok(["## Step None: Step"])
  {
    assert PyStr(Null) == "None";
    assert "## Step " + "None" + ": " + "Step" == "## Step None: Step";
    assert ["## Step None: Step"] + [] + [] == ["## Step None: Step"];
  }

  /** A step without `stepNumber` is headed `## Step None: ...`. */
  lemma MissingStepNumber(step: Json)
    requires step.Obj? && Lookup(step.members, "stepNumber").None?
    ensures StepLines(step).Ok?
    ensures StepLines(step).value[0] == "## Step None: " + PyStr(Field(step, "title", Str("Step")))
  {
  }

  /** A list field that is missing, `None` or empty renders as nothing, thanks to `or []`. */
  lemma FalsyListRendersNothing(caption: string, value: Json)
    requires !Truthy(value)
    ensures Labelled(caption, Or(value, Arr([]))) == Ok([])
  {
  }

  /** A section whose objectives are missing or falsy is its heading and, when truthy, its duration. */
  lemma NoObjectives(section: Json)
    requires section.Obj? && !Truthy(Field(section, "objectives", Arr([])))
    ensures OutlineSectionLines(section) == Ok(["## " + PyStr(Field(section, "title", Str("Section")))]
      + (if Truthy(Field(section, "durationMinutes")) then ["_Duration: " + PyStr(Field(section, "durationMinutes")) + " minutes_"] else []))
  {
    var h := ["## " + PyStr(Field(section, "title", Str("Section")))];
    assert h + [] == h;
  }

  /** `render_artifacts` passes `artifacts.get(...)`, which is `None` for a missing artifact, and `.get` on `None` raises. */
  lemma MissingArtifactRaises()
    ensures OutlineMd(Null).Err? && InstructorMd(Null).Err? && VideoMd(Null).Err? && QrgMd(Null).Err?
  {
  }

  /** `for x in outline.get("sections", [])` has no `or []`: an explicit `None` raises. */
  lemma NullSectionsRaise()
    ensures OutlineMd(Obj([("sections", Null)])).Err?
    ensures InstructorMd(Obj([("sections", Null)])).Err?
    ensures VideoMd(Obj([("segments", Null)])).Err?
    ensures QrgMd(Obj([("steps", Null)])).Err?
  {
    NullNotIterable(OutlineSectionLines);
    NullNotIterable(GuideSectionLines);
    NullNotIterable(SegmentLines);
    NullNotIterable(StepLines);
    assert Field(Obj([("sections", Null)]), "sections", Arr([])) == Null;
    assert Field(Obj([("segments", Null)]), "segments", Arr([])) == Null;
    assert Field(Obj([("steps", Null)]), "steps", Arr([])) == Null;
  }

  /** Iterating `None` raises, whatever the loop body. */
  lemma NullNotIterable<U>(f: Json -> Result<seq<U>>)
    ensures ForEach(Null, f).Err?
  {
  }

  /** An item that is no dict raises on `.get`, and a truthy list field that is not iterable raises in the loop. */
  lemma WrongShapesRaise()
    ensures OutlineMd(Obj([("sections", Arr([Str("intro")]))])).Err?
    ensures OutlineSectionLines(Obj([("objectives", Int(3))])).Err?
    ensures GuideSectionLines(Obj([("talkingPoints", Bool(true))])).Err?
  {
    NonDictSectionRaises();
    NonIterableGuideFieldRaises();
  }

  /** A section that is no dict raises on `.get` inside the outline loop. */
  lemma NonDictSectionRaises()
    ensures OutlineMd(Obj([("sections", Arr([Str("intro")]))])).Err?
  {
  }

  /** A truthy `talkingPoints` that is no list raises when the guide section iterates it. */
  lemma NonIterableGuideFieldRaises()
    ensures GuideSectionLines(Obj([("talkingPoints", Bool(true))])).Err?
  {
    var section := Obj([("talkingPoints", Bool(true))]);
    assert GuideKeys[..0] == [];
    GuideEntriesSnoc(section, GuideKeys, 0);
    GuideEntriesSnoc(section, GuideKeys, 1);
    GuideEntriesErrStands(section, GuideKeys, 2);
  }

  /** A truthy narration that is no string is appended as it is, and `join` then raises. */
  lemma NonStringNarrationRaises()
    ensures VideoMd(Obj([("segments", Arr([Obj([("narration", Int(5))])]))])).Err?
  {
    var segment := Obj([("narration", Int(5))]);
    assert "## " + "Segment" == "## Segment";
    assert Field(segment, "title", Str("Segment")) == Str("Segment");
    assert TextBlock("**Narration**", Field(segment, "narration")) == [Str("**Narration**"), Int(5)];
    assert [Str("## Segment")] + [Str("**Narration**"), Int(5)] + [] + [] == [Str("## Segment"), Str("**Narration**"), Int(5)];
    assert SegmentLines(segment) == Ok([Str("## Segment"), Str("**Narration**"), Int(5)]);
    assert FlatMapR([segment], SegmentLines) == Ok([Str("## Segment"), Str("**Narration**"), Int(5)]) by {
      assert [segment][..0] == [];
      assert [] + [Str("## Segment"), Str("**Narration**"), Int(5)] == [Str("## Segment"), Str("**Narration**"), Int(5)];
    }
  }

  /** A line starting with `#`, `*` or `-` is no duration line. */
  lemma NotDurationLine(line: string, prefix: string)
    requires line != [] && (line[0] == '#' || line[0] == '*' || line[0] == '-')
    requires prefix != [] && prefix[0] == '_'
    ensures !StartsWith(line, prefix)
  {
    DiffersAt(line, prefix, 0);
  }

  /** Every line of a labelled list starts with `*` (the caption) or `-` (a bullet). */
  lemma LabelledLines(caption: string, entries: Json)
    requires Labelled(caption, entries).Ok?
    ensures forall line :: line in Labelled(caption, entries).value ==> line != [] && (line[0] == '*' || line[0] == '-')
  {
    if Truthy(entries) {
      var xs := PyList(entries).value;
      forall line | line in Bullets("- ", xs)
        ensures line != [] && line[0] == '-'
      {
        var k :| 0 <= k < |xs| && Bullets("- ", xs)[k] == line;
      }
    }
  }

  /** A duration line appears in a rendered outline section exactly when the duration is truthy. */
  lemma OutlineDurationRule(section: Json)
    requires section.Obj? && OutlineSectionLines(section).Ok?
    ensures (exists line :: line in OutlineSectionLines(section).value && StartsWith(line, "_Duration:"))
      <==> Truthy(Field(section, "durationMinutes"))
  {
    var objectives := Or(Field(section, "objectives", Arr([])), Arr([]));
    var pre := ["## " + PyStr(Field(section, "title", Str("Section")))] + Labelled("Objectives", objectives).value;
    LabelledLines("Objectives", objectives);
    forall line | line in pre
      ensures !StartsWith(line, "_Duration:")
    {
      NotDurationLine(line, "_Duration:");
    }
    var duration := Field(section, "durationMinutes");
    if Truthy(duration) {
      var line := "_Duration: " + PyStr(duration) + " minutes_";
      assert line == "_Duration:" + (" " + PyStr(duration) + " minutes_");
      StartsWithConcat("_Duration:", " " + PyStr(duration) + " minutes_");
      assert OutlineSectionLines(section).value == pre + [line];
      assert OutlineSectionLines(section).value[|pre|] == line;
    } else {
      assert OutlineSectionLines(section).value == pre;
    }
  }

  /** Every line the labelled lists of an instructor section contribute starts with `*` or `-`. */
  lemma {:induction false} GuideEntriesLines(section: Json, keys: seq<(string, string)>)
    requires section.Obj? && GuideEntries(section, keys).Ok?
    ensures forall line :: line in GuideEntries(section, keys).value ==> line != [] && (line[0] == '*' || line[0] == '-')
    decreases |keys|
  {
    if keys != [] {
      var init := keys[..|keys| - 1];
      GuideEntriesLines(section, init);
      var last := keys[|keys| - 1];
      LabelledLines(last.0, Or(Field(section, last.1, Arr([])), Arr([])));
    }
  }

  /** A timing line appears in a rendered instructor section exactly when the timing is truthy. */
  lemma GuideTimingRule(section: Json)
    requires section.Obj? && GuideSectionLines(section).Ok?
    ensures (exists line :: line in GuideSectionLines(section).value && StartsWith(line, "_Timing:"))
      <==> Truthy(Field(section, "timingMinutes"))
  {
    var pre := ["## " + PyStr(Field(section, "title", Str("Section")))] + GuideEntries(section, GuideKeys).value;
    GuideEntriesLines(section, GuideKeys);
    forall line | line in pre
      ensures !StartsWith(line, "_Timing:")
    {
      NotDurationLine(line, "_Timing:");
    }
    var timing := Field(section, "timingMinutes");
    if Truthy(timing) {
      var line := "_Timing: " + PyStr(timing) + " minutes_";
      assert line == "_Timing:" + (" " + PyStr(timing) + " minutes_");
      StartsWithConcat("_Timing:", " " + PyStr(timing) + " minutes_");
      assert GuideSectionLines(section).value == pre + [line];
      assert GuideSectionLines(section).value[|pre|] == line;
    } else {
      assert GuideSectionLines(section).value == pre;
    }
  }

  /**
   * A segment's last line is its duration exactly when the duration is
   * truthy; a falsy narration or falsy screen directions add nothing.
   */
  lemma SegmentDurationRule(segment: Json)
    requires segment.Obj?
    ensures SegmentLines(segment).Ok?
    ensures var lines := SegmentLines(segment).value;
      var duration := Field(segment, "durationSeconds");
      |lines| == 1 + (if Truthy(Field(segment, "narration")) then 2 else 0)
        + (if Truthy(Field(segment, "screenDirections")) then 2 else 0) + (if Truthy(duration) then 1 else 0)
      && (Truthy(duration) ==> lines[|lines| - 1] == Str("_Duration: " + PyStr(duration) + " seconds_"))
  {
  }
}
