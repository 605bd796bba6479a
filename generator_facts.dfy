/** What generator/generator.py promises about its parsers and wrappers. */
module GeneratorFacts {
  import opened Wrappers
  import opened Json
  import opened GeneratorModels
  import opened Survivors
  import opened Generator

  /** A payload that is not a dict yields empty artifacts, and the outline takes the fallback title. */
  lemma NonDictPayload(payload: Json, courseTitle: string, classType: string)
    requires !payload.Obj?
    ensures OutlineOf(payload, courseTitle, classType) == Ok(ClassOutline(Str(courseTitle + " (" + classType + ")"), []))
    ensures GuideOf(payload) == Ok(InstructorGuide([]))
    ensures ScriptOf(payload) == Ok(VideoScript([]))
    ensures QuickReferenceOf(payload) == Ok(QuickReferenceGuide([]))
  {
  }

  /** A top-level list that cannot be iterated raises outside the per-item `try`. */
  lemma NonIterableListRaises(payload: Json, courseTitle: string, classType: string)
    requires payload.Obj?
    ensures !PyList(ListOf(payload, "sections")).Ok? ==> OutlineOf(payload, courseTitle, classType).Err?
    ensures !PyList(ListOf(payload, "sections")).Ok? ==> GuideOf(payload).Err?
    ensures !PyList(ListOf(payload, "segments")).Ok? ==> ScriptOf(payload).Err?
    ensures !PyList(ListOf(payload, "steps")).Ok? ==> QuickReferenceOf(payload).Err?
  {
  }

  /** `"sections": null` (or a number, or a boolean) makes the outline and guide wrappers fall back. */
  lemma NullSectionsFallBack(payload: Json, courseTitle: string, classType: string)
    requires payload.Obj? && Lookup(payload.members, "sections") == Some(Null)
    ensures OutlineFromReply(Ok(payload), courseTitle, classType) == ClassOutline(Str(courseTitle + " (" + classType + ")"), [])
    ensures GuideFromReply(Ok(payload)) == InstructorGuide([])
  {
  }

  /** A failed model call gives each wrapper's canned artifact. */
  lemma CallFailureFallsBack(reply: Result<Json>, courseTitle: string, classType: string)
    requires reply.Err?
    ensures OutlineFromReply(reply, courseTitle, classType) == ClassOutline(Str(courseTitle + " (" + classType + ")"), [])
    ensures GuideFromReply(reply) == InstructorGuide([])
    ensures ScriptFromReply(reply) == VideoScript([])
    ensures QuickRefFromReply(reply) == QuickReferenceGuide([])
  {
  }

  /** A payload that parses is returned as parsed; one that raises gives the canned artifact. */
  lemma ParsedPayloadIsReturned(payload: Json, courseTitle: string, classType: string)
    ensures OutlineOf(payload, courseTitle, classType).Ok? ==>
      OutlineFromReply(Ok(payload), courseTitle, classType) == OutlineOf(payload, courseTitle, classType).value
    ensures OutlineOf(payload, courseTitle, classType).Err? ==>
      OutlineFromReply(Ok(payload), courseTitle, classType) == ClassOutline(Str(courseTitle + " (" + classType + ")"), [])
    ensures GuideOf(payload).Ok? ==> GuideFromReply(Ok(payload)) == GuideOf(payload).value
    ensures GuideOf(payload).Err? ==> GuideFromReply(Ok(payload)) == InstructorGuide([])
    ensures ScriptOf(payload).Ok? ==> ScriptFromReply(Ok(payload)) == ScriptOf(payload).value
    ensures ScriptOf(payload).Err? ==> ScriptFromReply(Ok(payload)) == VideoScript([])
    ensures QuickReferenceOf(payload).Ok? ==> QuickRefFromReply(Ok(payload)) == QuickReferenceOf(payload).value
    ensures QuickReferenceOf(payload).Err? ==> QuickRefFromReply(Ok(payload)) == QuickReferenceGuide([])
  {
  }

  // ---------------------------------------------------------------------
  // Whatever the model returns, the records have the coerced shapes
  // ---------------------------------------------------------------------

  lemma {:induction false} CollectedOutlineShape(items: seq<Json>)
    ensures forall s :: s in Collect(items, BuildOutlineSection) ==>
      s.title.Str? && s.objectives.Arr? && s.subtopics.Arr?
  {
    forall s | s in Collect(items, BuildOutlineSection)
      ensures s.title.Str? && s.objectives.Arr? && s.subtopics.Arr?
    {
      CollectMembers(items, BuildOutlineSection, s);
    }
  }

  /** The outline title is always truthy; section titles are strings and the list fields are lists. */
  lemma GeneratedOutlineShape(call: Result<Json>, courseTitle: string, classType: string)
    ensures var o := OutlineFromReply(call, courseTitle, classType);
      Truthy(o.title) && OutlineListsAreLists(o) && forall k :: 0 <= k < |o.sections| ==> o.sections[k].title.Str?
  {
    var o := OutlineFromReply(call, courseTitle, classType);
    assert Truthy(Str(FallbackTitle(courseTitle, classType))) by {
      assert |FallbackTitle(courseTitle, classType)| >= 2;
    }
    if call.Ok? && PyList(ListOf(call.value, "sections")).Ok? {
      CollectedOutlineShape(PyList(ListOf(call.value, "sections")).value);
    }
    assert forall k :: 0 <= k < |o.sections| ==> o.sections[k] in o.sections;
  }

  lemma {:induction false} CollectedGuideShape(items: seq<Json>)
    ensures forall s :: s in Collect(items, BuildInstructorSection) ==>
      s.title.Str? && s.learningObjectives.Arr? && s.talkingPoints.Arr? && s.suggestedActivities.Arr?
  {
    forall s | s in Collect(items, BuildInstructorSection)
      ensures s.title.Str? && s.learningObjectives.Arr? && s.talkingPoints.Arr? && s.suggestedActivities.Arr?
    {
      CollectMembers(items, BuildInstructorSection, s);
    }
  }

  lemma GeneratedGuideShape(call: Result<Json>)
    ensures var g := GuideFromReply(call);
      GuideListsAreLists(g) && forall k :: 0 <= k < |g.sections| ==> g.sections[k].title.Str?
  {
    var g := GuideFromReply(call);
    if call.Ok? && PyList(ListOf(call.value, "sections")).Ok? {
      CollectedGuideShape(PyList(ListOf(call.value, "sections")).value);
    }
    assert forall k :: 0 <= k < |g.sections| ==> g.sections[k] in g.sections;
  }

  lemma {:induction false} CollectedScriptShape(items: seq<Json>)
    ensures forall s :: s in Collect(items, BuildVideoSegment) ==>
      s.title.Str? && s.narration.Str? && s.screenDirections.Str?
  {
    forall s | s in Collect(items, BuildVideoSegment)
      ensures s.title.Str? && s.narration.Str? && s.screenDirections.Str?
    {
      CollectMembers(items, BuildVideoSegment, s);
    }
  }

  /** Titles, narration and screen directions of a generated script are always strings. */
  lemma GeneratedScriptShape(call: Result<Json>)
    ensures var v := ScriptFromReply(call);
      ScriptTextsAreStrings(v) && ScriptTitlesAreStrings(v)
  {
    var v := ScriptFromReply(call);
    if call.Ok? && PyList(ListOf(call.value, "segments")).Ok? {
      CollectedScriptShape(PyList(ListOf(call.value, "segments")).value);
    }
    assert forall k :: 0 <= k < |v.segments| ==> v.segments[k] in v.segments;
  }

  lemma {:induction false} ParsedStepsShape(items: seq<Json>)
    ensures forall k :: 0 <= k < |ParsedSteps(items)| ==>
      ParsedSteps(items)[k].stepNumber.Int? && ParsedSteps(items)[k].title.Str? && ParsedSteps(items)[k].action.Str?
  {
    if items != [] {
      var init := items[..|items| - 1];
      ParsedStepsShape(init);
      assert ParsedSteps(items) == ParsedSteps(init) + Survivor(BuildStep(items[|items| - 1], |ParsedSteps(init)|));
    }
  }

  /** Step numbers of a generated guide are always integers; titles and actions are strings. */
  lemma GeneratedQuickRefShape(call: Result<Json>)
    ensures var q := QuickRefFromReply(call);
      forall k :: 0 <= k < |q.steps| ==> q.steps[k].stepNumber.Int? && q.steps[k].title.Str? && q.steps[k].action.Str?
  {
    if call.Ok? && PyList(ListOf(call.value, "steps")).Ok? {
      ParsedStepsShape(PyList(ListOf(call.value, "steps")).value);
    }
  }

  // ---------------------------------------------------------------------
  // Defaults and coercions of one item
  // ---------------------------------------------------------------------

  /** An empty dict item takes every default. */
  lemma EmptyItemDefaults(count: nat)
    ensures BuildOutlineSection(Obj([])) == Ok(OutlineSection(Str("Untitled Section"), Arr([]), Null, Arr([])))
    ensures BuildInstructorSection(Obj([])) == Ok(InstructorSection(Str("Untitled Section"), Arr([]), Arr([]), Arr([]), Null))
    ensures BuildVideoSegment(Obj([])) == Ok(VideoSegment(Str("Untitled Segment"), Str(""), Str(""), Null))
    ensures BuildStep(Obj([]), count) == Ok(QuickRefStep(Int(count + 1), Str("Step"), Str(""), Null))
  {
  }

  /** A title that is present but null is not defaulted: `str(None)` is `"None"`. */
  lemma NullTitleIsNone()
    ensures BuildOutlineSection(Obj([("title", Null)])).value.title == Str("None")
    ensures BuildVideoSegment(Obj([("title", Null)])).value.title == Str("None")
  {
  }

  /** A falsy list field becomes `[]`. */
  lemma FalsyListIsEmpty(item: Json, key: string, v: Json)
    requires item.Obj? && Lookup(item.members, key) == Some(v) && !Truthy(v)
    ensures ListField(item, key) == Ok(Arr([]))
  {
  }

  /** A non-empty string in a list field is split into its characters. */
  lemma TruthyStringIsSplit(item: Json, key: string, s: string)
    requires item.Obj? && Lookup(item.members, key) == Some(Str(s)) && s != []
    ensures ListField(item, key).Ok?
    ensures |ListField(item, key).value.items| == |s|
    ensures forall k :: 0 <= k < |s| ==> ListField(item, key).value.items[k] == Str([s[k]])
  {
  }

  /** A truthy number or `True` in `objectives` makes `list()` raise, so the section is dropped. */
  lemma TruthyScalarDropsSection(v: Json)
    requires (v.Int? && v.i != 0) || v == Bool(true)
    ensures BuildOutlineSection(Obj([("objectives", v)])).Err?
    ensures BuildOutlineSection(Obj([("subtopics", v)])).Err?
    ensures Collect([Obj([("objectives", v)])], BuildOutlineSection) == []
  {
    CollectSingle(Obj([("objectives", v)]), BuildOutlineSection);
  }

  // ---------------------------------------------------------------------
  // Step numbers
  // ---------------------------------------------------------------------

  /** An absent step number is one more than the number of steps kept before it. */
  lemma AbsentStepNumberCounts(items: seq<Json>, item: Json)
    requires item.Obj? && Lookup(item.members, "step_number") == None
    ensures ParsedSteps(items + [item]) == ParsedSteps(items) +
      [QuickRefStep(Int(|ParsedSteps(items)| + 1), StrField(item, "title", "Step"), StrField(item, "action", ""), RawField(item, "notes"))]
  {
    assert (items + [item])[..|items + [item]| - 1] == items;
  }

  /** Later items never change the steps already kept. */
  lemma {:induction false} StepsPrefixStable(a: seq<Json>, b: seq<Json>)
    ensures |ParsedSteps(a)| <= |ParsedSteps(a + b)|
    ensures ParsedSteps(a + b)[..|ParsedSteps(a)|] == ParsedSteps(a)
    decreases |b|
  {
    if b == [] {
      assert a + b == a;
    } else {
      var b' := b[..|b| - 1];
      assert (a + b)[..|a + b| - 1] == a + b';
      StepsPrefixStable(a, b');
    }
  }

  lemma ExplicitStepKept(n: int)
    ensures ParsedSteps([Obj([("step_number", Int(n))])]) == [QuickRefStep(Int(n), Str("Step"), Str(""), Null)]
  {
    assert [Obj([("step_number", Int(n))])][..0] == [];
  }

  lemma AbsentAfterOne(n: int)
    ensures ParsedSteps([Obj([("step_number", Int(n))]), Obj([])]) ==
      [QuickRefStep(Int(n), Str("Step"), Str(""), Null), QuickRefStep(Int(2), Str("Step"), Str(""), Null)]
  {
    var x := Obj([("step_number", Int(n))]);
    assert [x, Obj([])][..1] == [x];
    ExplicitStepKept(n);
    EmptyItemDefaults(1);
  }

  /** Raw step numbers `[2, absent, "abc"]` parse to `[2, 2]`; a null one is dropped like `"abc"`. */
  lemma StepNumberExample()
    ensures var steps := ParsedSteps([Obj([("step_number", Int(2))]), Obj([]), Obj([("step_number", Str("abc"))])]);
      |steps| == 2 && steps[0].stepNumber == Int(2) && steps[1].stepNumber == Int(2)
    ensures BuildStep(Obj([("step_number", Null)]), 0).Err?
  {
    var x, y, z := Obj([("step_number", Int(2))]), Obj([]), Obj([("step_number", Str("abc"))]);
    AbsentAfterOne(2);
    NonNumericRaises("abc");
    assert BuildStep(z, |ParsedSteps([x, y])|).Err?;
    StepDropped([x, y], z);
    assert [x, y] + [z] == [x, y, z];
  }

  /** A last item whose construction raises leaves the kept steps as they were. */
  lemma StepDropped(items: seq<Json>, z: Json)
    requires BuildStep(z, |ParsedSteps(items)|).Err?
    ensures ParsedSteps(items + [z]) == ParsedSteps(items)
  {
    assert (items + [z])[..|items|] == items;
  }
}
