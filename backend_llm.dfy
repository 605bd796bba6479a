/**
 * backend/services/llm.py: placeholder generators for the backend records.
 * Each takes `(text, course_title)` and ignores `text`.
 */
module BackendLlm {
  import opened Wrappers
  import opened BackendTypes

  function GenerateClassOutline(text: string, courseTitle: string): ClassOutline
  {
    ClassOutline(courseTitle, [
      ClassOutlineSection("Introduction", ["Understand goals", "Set expectations"], Some(10)),
      ClassOutlineSection("Core Concepts", ["Learn the basics", "Review examples"], Some(30))
    ])
  }

  function GenerateInstructorGuide(text: string, courseTitle: string): InstructorGuide
  {
    InstructorGuide(courseTitle, [
      InstructorGuideSection("Kickoff", ["Establish rapport", "Preview agenda"],
        ["Welcome participants", "Share outcomes"], ["Icebreaker question"], Some(5)),
      InstructorGuideSection("Hands-on Walkthrough", ["Practice workflow"],
        ["Demonstrate key steps", "Highlight pitfalls"], ["Live demo", "Group exercise"], Some(25))
    ])
  }

  function GenerateVideoScript(text: string, courseTitle: string): VideoScript
  {
    VideoScript(courseTitle, [
      VideoScriptSegment("Scene 1 - Overview",
        "Welcome to the training. In this lesson, we'll cover the essentials.",
        "Show title slide, slow zoom, then fade to dashboard.", Some(45)),
      VideoScriptSegment("Scene 2 - Doing the Work",
        "Click on 'Create' to start a new project and fill in the details.",
        "Capture cursor clicking Create, highlight form fields, zoom on Save button.", Some(75))
    ])
  }

  function GenerateQuickReference(text: string, courseTitle: string): QuickReferenceGuide
  {
    QuickReferenceGuide(courseTitle, [
      QuickReferenceStep(1, "Set Up", "Open the application and sign in with your credentials.", Some("Use SSO when available.")),
      QuickReferenceStep(2, "Create Item", "Click 'Create', enter required fields, and press Save.", Some("Fields marked * are mandatory."))
    ])
  }

  /** The outline's title is the course title itself (no class type), with sections of 10 and 30 minutes. */
  lemma OutlineTemplate(text: string, courseTitle: string)
    ensures var o := GenerateClassOutline(text, courseTitle);
      o.title == courseTitle && |o.sections| == 2
      && o.sections[0].durationMinutes == Some(10) && o.sections[1].durationMinutes == Some(30)
  {
  }

  /** The guide carries the course title; its two sections are timed 5 and 25 minutes. */
  lemma GuideTemplate(text: string, courseTitle: string)
    ensures var g := GenerateInstructorGuide(text, courseTitle);
      g.courseTitle == courseTitle && |g.sections| == 2
      && g.sections[0].timingMinutes == Some(5) && g.sections[1].timingMinutes == Some(25)
  {
  }

  /** The script carries the course title; its two segments last 45 and 75 seconds. */
  lemma ScriptTemplate(text: string, courseTitle: string)
    ensures var v := GenerateVideoScript(text, courseTitle);
      v.courseTitle == courseTitle && |v.segments| == 2
      && v.segments[0].durationSeconds == Some(45) && v.segments[1].durationSeconds == Some(75)
  {
  }

  /** The quick reference carries the course title; its steps are numbered 1, 2 in order. */
  lemma QuickRefTemplate(text: string, courseTitle: string)
    ensures var q := GenerateQuickReference(text, courseTitle);
      q.courseTitle == courseTitle && |q.steps| == 2
      && forall k :: 0 <= k < |q.steps| ==> q.steps[k].stepNumber == k + 1
  {
  }

  /** The source text is never read: each generator gives the same record for any two texts. */
  lemma OutlineFixed(text1: string, text2: string, courseTitle: string)
    ensures GenerateClassOutline(text1, courseTitle) == GenerateClassOutline(text2, courseTitle)
  {
  }

  lemma GuideFixed(text1: string, text2: string, courseTitle: string)
    ensures GenerateInstructorGuide(text1, courseTitle) == GenerateInstructorGuide(text2, courseTitle)
  {
  }

  lemma ScriptFixed(text1: string, text2: string, courseTitle: string)
    ensures GenerateVideoScript(text1, courseTitle) == GenerateVideoScript(text2, courseTitle)
  {
  }

  lemma QuickRefFixed(text1: string, text2: string, courseTitle: string)
    ensures GenerateQuickReference(text1, courseTitle) == GenerateQuickReference(text2, courseTitle)
  {
  }
}
