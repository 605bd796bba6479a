/**
 * generator/llm_stub.py: placeholder generators that build constant
 * artifacts.  Only the course title and class type reach the output.
 */
module LlmStub {
  import opened Json
  import opened GeneratorModels

  function GenerateClassOutline(fullText: string, courseTitle: string, classType: string): ClassOutline
  {
    ClassOutline(Str(courseTitle + " (" + classType + ")"), [
      OutlineSection(Str("Introduction and Objectives"), Strs(["Set context", "Highlight key outcomes"]),
        Int(10), Strs(["Welcome", "Agenda", "Relevance to learners"])),
      OutlineSection(Str("Core Concepts"), Strs(["Present fundamentals", "Connect concepts to use cases"]),
        Int(35), Strs(["Concept A", "Concept B", "Mini demo"])),
      OutlineSection(Str("Hands-on Practice"), Strs(["Guide learners through steps", "Encourage experimentation"]),
        Int(25), Strs(["Guided exercise", "Reflection"]))
    ])
  }

  function GenerateInstructorGuide(fullText: string, courseTitle: string, classType: string): InstructorGuide
  {
    InstructorGuide([
      InstructorSection(Str("Opening"), Strs(["Establish rapport", "Clarify expectations"]),
        Strs(["Share course purpose", "Ask about prior knowledge"]), Strs(["Icebreaker poll", "Pair introductions"]), Int(8)),
      InstructorSection(Str("Demonstration"), Strs(["Show the workflow", "Explain rationale"]),
        Strs(["Narrate each step", "Call out shortcuts"]), Strs(["Live demo", "Q&A"]), Int(20)),
      InstructorSection(Str("Wrap-up"), Strs(["Summarize learnings", "Preview next steps"]),
        Strs(["Recap key takeaways", "Provide resources"]), Strs(["Exit ticket", "Share links"]), Int(7))
    ])
  }

  function GenerateVideoScript(fullText: string, courseTitle: string, classType: string): VideoScript
  {
    VideoScript([
      VideoSegment(Str("Hook"), Str("Welcome to " + courseTitle + ". Let's dive into why this matters."),
        Str("Show course title slide; slow zoom-in on headline."), Int(20)),
      VideoSegment(Str("Demo"), Str("Watch as we perform the core task step by step."),
        Str("Capture screen; cursor highlights key buttons; zoom on form fields."), Int(60)),
      VideoSegment(Str("Summary"), Str("Here are the top takeaways and where to learn more."),
        Str("Return to slides; bullet points fade in; show resource links."), Int(25))
    ])
  }

  function GenerateQuickReference(fullText: string, courseTitle: string, classType: string): QuickReferenceGuide
  {
    QuickReferenceGuide([
      QuickRefStep(Int(1), Str("Prepare"), Str("Open the project workspace and verify access."), Str("Ensure login credentials are ready.")),
      QuickRefStep(Int(2), Str("Configure"), Str("Adjust settings according to the template."), Str("Focus on defaults that impact performance.")),
      QuickRefStep(Int(3), Str("Run"), Str("Execute the workflow and monitor outcomes."), Str("Capture screenshots of key results."))
    ])
  }

  /** Total scheduled minutes of an outline whose durations are all ints. */
  function OutlineMinutes(sections: seq<OutlineSection>): int
    requires forall k :: 0 <= k < |sections| ==> sections[k].durationMinutes.Int?
  {
    if sections == [] then 0
    else OutlineMinutes(sections[..|sections| - 1]) + sections[|sections| - 1].durationMinutes.i
  }

  /** The outline is titled `"{course_title} ({class_type})"` and schedules 10, 35 and 25 minutes. */
  lemma OutlineTemplate(fullText: string, courseTitle: string, classType: string)
    ensures var o := GenerateClassOutline(fullText, courseTitle, classType);
      && o.title == Str(courseTitle + " (" + classType + ")")
      && |o.sections| == 3
      && (forall k :: 0 <= k < 3 ==> o.sections[k].durationMinutes.Int?)
      && [o.sections[0].durationMinutes.i, o.sections[1].durationMinutes.i, o.sections[2].durationMinutes.i] == [10, 35, 25]
      && OutlineMinutes(o.sections) == 70
      && OutlineAnnotated(o)
  {
    var s := GenerateClassOutline(fullText, courseTitle, classType).sections;
    assert s[..2][..1] == s[..1] && s[..1][..0] == [];
    assert OutlineMinutes(s[..1]) == 10;
    assert OutlineMinutes(s[..2]) == 45;
  }

  /** The guide's sections are Opening, Demonstration and Wrap-up, timed 8, 20 and 7 minutes. */
  lemma GuideTemplate(fullText: string, courseTitle: string, classType: string)
    ensures var g := GenerateInstructorGuide(fullText, courseTitle, classType);
      && |g.sections| == 3
      && [g.sections[0].title, g.sections[1].title, g.sections[2].title] == [Str("Opening"), Str("Demonstration"), Str("Wrap-up")]
      && [g.sections[0].estimatedTimeMinutes, g.sections[1].estimatedTimeMinutes, g.sections[2].estimatedTimeMinutes]
         == [Int(8), Int(20), Int(7)]
      && GuideAnnotated(g)
  {
  }

  /** Three segments of 20, 60 and 25 seconds; the first narration welcomes the learner to the course. */
  lemma ScriptTemplate(fullText: string, courseTitle: string, classType: string)
    ensures var v := GenerateVideoScript(fullText, courseTitle, classType);
      && |v.segments| == 3
      && [v.segments[0].approxDurationSeconds, v.segments[1].approxDurationSeconds, v.segments[2].approxDurationSeconds]
         == [Int(20), Int(60), Int(25)]
      && v.segments[0].narration == Str("Welcome to " + courseTitle + ". Let's dive into why this matters.")
      && ScriptAnnotated(v)
  {
  }

  /** Steps are numbered 1, 2, 3 in order and each carries non-empty notes. */
  lemma QuickRefTemplate(fullText: string, courseTitle: string, classType: string)
    ensures var q := GenerateQuickReference(fullText, courseTitle, classType);
      && |q.steps| == 3
      && (forall k :: 0 <= k < |q.steps| ==> q.steps[k].stepNumber == Int(k + 1))
      && (forall k :: 0 <= k < |q.steps| ==> q.steps[k].notes.Str? && q.steps[k].notes.s != [])
      && QuickRefAnnotated(q)
  {
  }

  /** The outline sections read none of the arguments: the course title and class type reach only the title. */
  lemma OutlineSectionsFixed(text1: string, text2: string, title1: string, title2: string, type1: string, type2: string)
    ensures GenerateClassOutline(text1, title1, type1).sections == GenerateClassOutline(text2, title2, type2).sections
  {
  }

  /** The guide depends on none of its arguments. */
  lemma GuideFixed(text1: string, text2: string, title1: string, title2: string, type1: string, type2: string)
    ensures GenerateInstructorGuide(text1, title1, type1) == GenerateInstructorGuide(text2, title2, type2)
  {
  }

  /** The script depends on the course title alone. */
  lemma ScriptFixed(text1: string, text2: string, courseTitle: string, type1: string, type2: string)
    ensures GenerateVideoScript(text1, courseTitle, type1) == GenerateVideoScript(text2, courseTitle, type2)
  {
  }

  /** The quick reference depends on none of its arguments. */
  lemma QuickRefFixed(text1: string, text2: string, title1: string, title2: string, type1: string, type2: string)
    ensures GenerateQuickReference(text1, title1, type1) == GenerateQuickReference(text2, title2, type2)
  {
  }
}
