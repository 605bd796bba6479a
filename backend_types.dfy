/**
 * The pydantic records of backend/models/types.py.  Pydantic checks field
 * types, so the fields are typed; constructor defaults stand for the
 * `Field(default_factory=list)` and `= None` defaults.
 */
module BackendTypes {
  import opened Wrappers

  datatype ClassOutlineSection = ClassOutlineSection(
    title: string,
    objectives: seq<string> := [],
    durationMinutes: Option<int> := None)

  datatype ClassOutline = ClassOutline(title: string, sections: seq<ClassOutlineSection> := [])

  datatype InstructorGuideSection = InstructorGuideSection(
    title: string,
    learningObjectives: seq<string> := [],
    talkingPoints: seq<string> := [],
    suggestedActivities: seq<string> := [],
    timingMinutes: Option<int> := None)

  datatype InstructorGuide = InstructorGuide(courseTitle: string, sections: seq<InstructorGuideSection> := [])

  datatype VideoScriptSegment = VideoScriptSegment(
    title: string,
    narration: string,
    screenDirections: string,
    durationSeconds: Option<int> := None)

  datatype VideoScript = VideoScript(courseTitle: string, segments: seq<VideoScriptSegment> := [])

  datatype QuickReferenceStep = QuickReferenceStep(
    stepNumber: int,
    title: string,
    action: string,
    notes: Option<string> := None)

  datatype QuickReferenceGuide = QuickReferenceGuide(courseTitle: string, steps: seq<QuickReferenceStep> := [])

  datatype GenerateRequest = GenerateRequest(
    extractedText: string,
    courseTitle: string,
    classType: string,
    openaiApiKey: Option<string> := None)

  datatype GenerateResponse = GenerateResponse(
    classOutline: ClassOutline,
    instructorGuide: InstructorGuide,
    videoScript: VideoScript,
    quickReferenceGuide: QuickReferenceGuide)

  /** Leaving out an optional field gives an empty list or `None`; the required fields are kept. */
  lemma DefaultsWhenOmitted(title: string, text: string, n: int)
    ensures ClassOutlineSection(title) == ClassOutlineSection(title, [], None)
    ensures ClassOutline(title).sections == []
    ensures InstructorGuideSection(title) == InstructorGuideSection(title, [], [], [], None)
    ensures InstructorGuide(title).sections == []
    ensures VideoScriptSegment(title, text, text).durationSeconds == None
    ensures VideoScript(title).segments == []
    ensures QuickReferenceStep(n, title, text).notes == None
    ensures QuickReferenceGuide(title).steps == []
    ensures GenerateRequest(text, title, text).openaiApiKey == None
  {
  }
}
