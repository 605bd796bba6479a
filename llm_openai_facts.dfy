/** What generator/llm_openai.py's parsers promise, and how they differ from generator/generator.py's. */
module LlmOpenAiFacts {
  import opened Wrappers
  import opened Json
  import opened GeneratorModels
  import opened Survivors
  import opened LlmOpenAi
  import Generator

  /** Without a dict guard, every parser raises on a payload that is not a dict. */
  lemma NonDictPayloadRaises(payload: Json, courseTitle: string, classType: string)
    requires !payload.Obj?
    ensures OutlineOf(payload, courseTitle, classType).Err?
    ensures GuideOf(payload).Err?
    ensures ScriptOf(payload).Err?
    ensures QuickReferenceOf(payload).Err?
  {
  }

  /** The outline title is the payload's title when truthy, otherwise `"{course_title} ({class_type})"`. */
  lemma OutlineTitle(members: seq<(string, Json)>, courseTitle: string, classType: string)
    requires OutlineOf(Obj(members), courseTitle, classType).Ok?
    ensures var t := OutlineOf(Obj(members), courseTitle, classType).value.title;
      match Lookup(members, "title")
      case Some(v) => t == if Truthy(v) then v else Str(courseTitle + " (" + classType + ")")
      case None => t == Str(courseTitle + " (" + classType + ")")
  {
  }

  /** Absent fields take the defaults; an absent step number stays `None`. */
  lemma EmptyItemDefaults()
    ensures BuildOutlineSection(Obj([])) == Ok(OutlineSection(Str("Untitled Section"), Arr([]), Null, Arr([])))
    ensures BuildInstructorSection(Obj([])) == Ok(InstructorSection(Str("Untitled Section"), Arr([]), Arr([]), Arr([]), Null))
    ensures BuildVideoSegment(Obj([])) == Ok(VideoSegment(Str("Untitled Segment"), Str(""), Str(""), Null))
    ensures BuildStep(Obj([])) == Ok(QuickRefStep(Null, Str("Step"), Str(""), Null))
  {
  }

  /** A step number is stored verbatim: no `int()`, no positional default. */
  lemma StepNumberVerbatim(members: seq<(string, Json)>, v: Json)
    requires Lookup(members, "step_number") == Some(v)
    ensures BuildStep(Obj(members)).value.stepNumber == v
  {
  }

  /** Nothing but a non-dict item is dropped: on a list of dicts every item survives, in order. */
  lemma DictItemsAllSurvive(items: seq<Json>)
    requires forall k :: 0 <= k < |items| ==> items[k].Obj?
    ensures |Collect(items, BuildVideoSegment)| == |items|
    ensures |Collect(items, BuildStep)| == |items|
    ensures forall k :: 0 <= k < |items| ==> Collect(items, BuildStep)[k] == BuildStep(items[k]).value
  {
    CollectAllOk(items, BuildVideoSegment);
    CollectAllOk(items, BuildStep);
  }

  /** Values reach the records uncoerced, where generator/generator.py would apply `str()` and `list()`. */
  lemma ValuesNotCoerced()
    ensures BuildVideoSegment(Obj([("title", Int(5))])).value.title == Int(5)
    ensures Generator.BuildVideoSegment(Obj([("title", Int(5))])).value.title == Str("5")
    ensures BuildOutlineSection(Obj([("objectives", Str("ab"))])).value.objectives == Str("ab")
    ensures Generator.BuildOutlineSection(Obj([("objectives", Str("ab"))])).value.objectives == Arr([Str("a"), Str("b")])
  {
    assert PyText.NatDecimal(5) == "5";
  }

  // ---------------------------------------------------------------------
  // Where the two variants agree
  // ---------------------------------------------------------------------

  /** A text field that is absent or already a string. */
  predicate StrOrAbsent(members: seq<(string, Json)>, key: string)
  {
    Lookup(members, key).None? || Lookup(members, key).value.Str?
  }

  predicate WellTypedSegment(item: Json)
  {
    item.Obj? && StrOrAbsent(item.members, "title") && StrOrAbsent(item.members, "narration")
    && StrOrAbsent(item.members, "screen_directions")
  }

  lemma SegmentBuildersAgree(item: Json)
    requires WellTypedSegment(item)
    ensures BuildVideoSegment(item) == Generator.BuildVideoSegment(item)
  {
  }

  /** On a dict payload whose segments are dicts with string texts, both script parsers give the same script. */
  lemma ScriptParsersAgree(payload: Json)
    requires payload.Obj? && Get(payload, "segments", Arr([])).value.Arr?
    requires var items := Get(payload, "segments", Arr([])).value.items;
      forall k :: 0 <= k < |items| ==> WellTypedSegment(items[k])
    ensures ScriptOf(payload) == Generator.ScriptOf(payload)
  {
    var items := Get(payload, "segments", Arr([])).value.items;
    forall k | 0 <= k < |items|
      ensures BuildVideoSegment(items[k]) == Generator.BuildVideoSegment(items[k])
    {
      SegmentBuildersAgree(items[k]);
    }
    CollectCongruent(items, BuildVideoSegment, Generator.BuildVideoSegment);
  }
}
