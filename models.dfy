/**
 * The dataclass records of generator/models.py.  Dataclasses do not check
 * their annotations, and the parsers store payload values in them as they
 * come, so every field holds a `Json` value (`Null` is Python's `None`).
 * The predicates below name the shapes the annotations describe and the
 * shapes the consumers of these records rely on.
 */
module GeneratorModels {
  import opened Json

  datatype OutlineSection = OutlineSection(
    title: Json,
    objectives: Json,
    durationMinutes: Json,
    subtopics: Json)

  datatype ClassOutline = ClassOutline(title: Json, sections: seq<OutlineSection>)

  datatype InstructorSection = InstructorSection(
    title: Json,
    learningObjectives: Json,
    talkingPoints: Json,
    suggestedActivities: Json,
    estimatedTimeMinutes: Json)

  datatype InstructorGuide = InstructorGuide(sections: seq<InstructorSection>)

  datatype VideoSegment = VideoSegment(
    title: Json,
    narration: Json,
    screenDirections: Json,
    approxDurationSeconds: Json)

  datatype VideoScript = VideoScript(segments: seq<VideoSegment>)

  datatype QuickRefStep = QuickRefStep(stepNumber: Json, title: Json, action: Json, notes: Json)

  datatype QuickReferenceGuide = QuickReferenceGuide(steps: seq<QuickRefStep>)

  datatype GeneratedPackage = GeneratedPackage(
    outline: ClassOutline,
    instructorGuide: InstructorGuide,
    videoScript: VideoScript,
    quickReference: QuickReferenceGuide)

  /** `List[str]` */
  predicate StrList(j: Json)
  {
    j.Arr? && forall k :: 0 <= k < |j.items| ==> j.items[k].Str?
  }

  /** `Optional[int]` */
  predicate OptInt(j: Json)
  {
    j.Null? || j.Int?
  }

  /** `Optional[str]` */
  predicate OptStr(j: Json)
  {
    j.Null? || j.Str?
  }

  /** Every field holds a value of its annotated type. */
  predicate OutlineAnnotated(o: ClassOutline)
  {
    && o.title.Str?
    && forall k :: 0 <= k < |o.sections| ==>
         var s := o.sections[k];
         s.title.Str? && StrList(s.objectives) && OptInt(s.durationMinutes) && StrList(s.subtopics)
  }

  predicate GuideAnnotated(g: InstructorGuide)
  {
    forall k :: 0 <= k < |g.sections| ==>
      var s := g.sections[k];
      && s.title.Str? && StrList(s.learningObjectives) && StrList(s.talkingPoints)
      && StrList(s.suggestedActivities) && OptInt(s.estimatedTimeMinutes)
  }

  predicate ScriptAnnotated(v: VideoScript)
  {
    forall k :: 0 <= k < |v.segments| ==>
      var s := v.segments[k];
      s.title.Str? && s.narration.Str? && s.screenDirections.Str? && OptInt(s.approxDurationSeconds)
  }

  predicate QuickRefAnnotated(q: QuickReferenceGuide)
  {
    forall k :: 0 <= k < |q.steps| ==>
      var s := q.steps[k];
      s.stepNumber.Int? && s.title.Str? && s.action.Str? && OptStr(s.notes)
  }

  /** The list fields are lists: what a renderer's `for` loops over them need. */
  predicate OutlineListsAreLists(o: ClassOutline)
  {
    forall k :: 0 <= k < |o.sections| ==> o.sections[k].objectives.Arr? && o.sections[k].subtopics.Arr?
  }

  predicate GuideListsAreLists(g: InstructorGuide)
  {
    forall k :: 0 <= k < |g.sections| ==>
      && g.sections[k].learningObjectives.Arr?
      && g.sections[k].talkingPoints.Arr?
      && g.sections[k].suggestedActivities.Arr?
  }

  /** Narration and screen directions are strings: `"\n".join` accepts only strings. */
  predicate ScriptTextsAreStrings(v: VideoScript)
  {
    forall k :: 0 <= k < |v.segments| ==> v.segments[k].narration.Str? && v.segments[k].screenDirections.Str?
  }

  /** Titles and narration are strings: what the narration synthesisers call `.strip()`/`.replace()` on. */
  predicate ScriptTitlesAreStrings(v: VideoScript)
  {
    forall k :: 0 <= k < |v.segments| ==> v.segments[k].title.Str? && v.segments[k].narration.Str?
  }
}
