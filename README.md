# courseCreator core, modelled in Dafny

courseCreator turns source material into four teaching artifacts:
- a class outline;
- an instructor guide;
- a video script;
- a quick reference guide.

It gets each artifact from a language model as a JSON payload, coerces the payload into records, renders the records as Markdown, voices the narration and packs a batch of classes into a ZIP. This project models that core, one module per source file:

- **Records.** `GeneratorModels` holds the dataclass records of generator/models.py; every field holds a `Json` value, because the dataclasses do not enforce their annotations. `BackendTypes` holds the pydantic records of backend/models/types.py, which are typed and carry their defaults.
- **Payload parsers and wrappers.** `Generator` (generator/generator.py) and `LlmOpenAi` (generator/llm_openai.py) model the source excerpt put into every prompt and the four payload parsers. Each parser is a loop with a `try` per item, proved equal to a specification function that keeps the surviving items in order. `Generator` also models the `generate_*` wrappers, which fall back to a canned artifact whenever the model call or the parse raises. `GeneratorFacts` and `LlmOpenAiFacts` prove what the parsers make of each shape of payload, and that the two script parsers agree.
- **Stub artifacts.** `LlmStub` (generator/llm_stub.py) and `BackendLlm` (backend/services/llm.py) build the fixed artifacts, whose contents are proved.
- **Markdown renderers.** There are four families: `MarkdownUtils`, `MarkdownExport`, `Formatting` and `StreamlitMarkdown`, the renderers over dicts in streamlit_app.py. Each renderer loop is proved equal to a specification that flattens one block of lines per item. Lemmas then say which lines appear, and when. `StreamlitFacts` proves that the dict renderers agree with `Formatting` on the JSON form of a record, and which inputs make them raise.
- **Audio.** `Audio` and `AudioProcessing` cover speech-to-text (the transcript loop) and text-to-speech (the narration payload map). Key uniqueness and the treatment of errors are proved.
- **Batch.** `Batch` (generator/batch_processor.py) covers:
  - `slugify`, proved to give a slug that is idempotent;
  - the CSV header check;
  - the folder layout of each row;
  - the run over the rows with its progress reports. The run stops at the first failing row, and its ZIP entries are the rows' layouts in order.
- **Video service.** `HeyGen` (heygen_client.py) covers the headers, the request payload, reading `video_id` and `status` out of a reply, and the `wait_for_video` polling loop over a trace of responses.
- **Other callers.**
  - `NotesOcr` (notes_ocr.py): the image data URLs and the labelled OCR chunks.
  - `TextExtraction`, `FileProcessing` and `BackendExtraction`: the section loops over uploaded files.
  - `App` (app.py): the input validation.
- **Helpers.** The helper modules model the Python behaviour the core relies on:
  - `Wrappers`: `Option`/`Result`;
  - `PyText`: the `str` builtins;
  - `Json`: payload values with Python's `str()`, `list()`, `int()`, truthiness and `.get`;
  - `TextWrap`: `textwrap.shorten`;
  - `Base64`, `Utf8` and `Bytes`;
  - `Lines`: flattening blocks of lines;
  - `Numbering`: `enumerate` labels;
  - `Survivors`: the per-item `try`/`continue` loop;
  - `Uploads`: uploaded files.

A Python exception is modelled as an `Err` whose text starts with the exception's class name. Language-model, speech, OCR, document-reader and HTTP calls are function parameters, and the model states its results for whatever those calls return.

## Model

| member | source | states |
|---|---|---|
| Survivors.Survivor | generator/generator.py:87-97 | one attempt contributes its built value when it succeeds and nothing exactly when it raises |
| Survivors.Collect | generator/generator.py:86-97 | the per-item `try` loop keeps at most one value per item |
| Survivors.CollectAppend | generator/generator.py:86-97 | collecting a concatenation collects each part: no item's failure disturbs another item's survival or order |
| Survivors.CollectSingle | generator/generator.py:86-97 | a one-item list keeps exactly that item's survivor |
| Survivors.Isolation | generator/generator.py:86-97 | the item at any position contributes exactly its own survivor, between those of its neighbours |
| Survivors.CollectMembers | generator/generator.py:86-97 | every kept value is the built value of some item |
| Survivors.CollectAllOk | generator/generator.py:86-97 | when no item raises nothing is dropped: the output is the built values, position by position |
| Survivors.CollectAllErr | generator/generator.py:86-97 | when every item raises the output is empty |
| Survivors.CollectCongruent | generator/generator.py:86-97 | two builders that agree on every item keep the same values |
| Survivors.CollectCounting | generator/generator.py:151-162 | the variant whose attempt reads `len(steps)` keeps at most one value per item |
| Survivors.KeepSurvivors | generator/generator.py:84-97 | the append loop computes exactly `Collect` of its items |
| Survivors.KeepCounted | generator/generator.py:149-162 | the append loop whose attempt reads how many were kept computes exactly `CollectCounting` |
| TextWrap.FitCountBounds | generator/generator.py:43 | greedy word fitting keeps fewer than all words when the whole join is too wide, and exactly as many as fit |
| TextWrap.ShortenFits | generator/generator.py:43 | `shorten` never exceeds `width`, and returns the whitespace-collapsed text whenever that fits |
| TextWrap.ShortenTruncates | generator/generator.py:43 | too-wide text drops at least one word and becomes the kept words followed by the placeholder (the stripped placeholder when no word fits) |
| TextWrap.KeptIsLongestFit | generator/generator.py:43 | the kept words are the longest leading run that fits beside the placeholder |
| TextWrap.ShortenBlank | generator/generator.py:43 | whitespace-only text shortens to the empty string |
| Generator.ExcerptOfEmpty | generator/generator.py:39-42 | empty source text becomes the notice `[No source text available.]` |
| Generator.ExcerptFits | generator/generator.py:39-43 | a non-empty excerpt is at most 6000 characters; text whose whitespace-collapsed form fits is returned collapsed |
| Generator.ExcerptTruncated | generator/generator.py:43 | text whose collapsed form exceeds 6000 characters becomes a strict prefix of its words joined by spaces, followed by `... [truncated]` |
| Generator.ExcerptKeepsLongestFit | generator/generator.py:43 | the truncated excerpt keeps the longest run of leading words that fits beside the placeholder: one more word would exceed 6000 |
| Generator.ExcerptOfBlank | generator/generator.py:41-43 | whitespace-only text is truthy, gets no notice, and shortens to the empty string |
| Generator.ListField | generator/generator.py:91 | `list(item.get(key, []) or [])` succeeds exactly when the value is falsy or iterable, and then yields a list |
| Generator.BuildOutlineSection | generator/generator.py:88-95 | one outline item is built exactly when it is a dict whose `objectives` and `subtopics` pass `list()`; the title is then a string and both fields are lists |
| Generator.BuildInstructorSection | generator/generator.py:112-120 | one guide item is built exactly when it is a dict whose three list fields pass `list()`; the title is a string and the three fields are lists |
| Generator.BuildVideoSegment | generator/generator.py:133-140 | one segment is built exactly when the item is a dict; title, narration and screen directions are then strings |
| Generator.BuildStep | generator/generator.py:153-160 | one step is built exactly when the item is a dict whose `step_number` (default: steps kept so far plus one) passes `int()`; the number is then an int and title and action are strings |
| Generator.ParsedSteps | generator/generator.py:151-162 | the step loop keeps at most one step per item |
| Generator.ParseOutline | generator/generator.py:82-103 | the loop with a `try` per item returns exactly the specification `OutlineOf`: the surviving sections in order and the payload title or `"{course_title} ({class_type})"`; a non-iterable `sections` raises |
| Generator.ParseInstructorGuide | generator/generator.py:106-124 | the loop returns exactly `GuideOf`: the surviving sections in order, or the error of a non-iterable `sections` |
| Generator.ParseVideoScript | generator/generator.py:127-144 | the loop returns exactly `ScriptOf`: the surviving segments in order, or the error of a non-iterable `segments` |
| Generator.ParseQuickReference | generator/generator.py:147-164 | the loop returns exactly `QuickReferenceOf`: the surviving steps, each numbered by the count kept before it when its number is absent |
| GeneratorFacts.NonDictPayload | generator/generator.py:83-148 | a payload that is not a dict gives four empty artifacts, and the outline is titled `"{course_title} ({class_type})"` |
| GeneratorFacts.NonIterableListRaises | generator/generator.py:86-151 | a top-level list value that cannot be iterated raises outside the per-item `try` |
| GeneratorFacts.NullSectionsFallBack | generator/generator.py:83-220 | `"sections": null` makes the `for` raise, so the outline and guide wrappers return their canned artifacts |
| GeneratorFacts.CallFailureFallsBack | generator/generator.py:185-272 | a model call that raises gives each wrapper its canned artifact, the outline titled `"{course_title} ({class_type})"` |
| GeneratorFacts.ParsedPayloadIsReturned | generator/generator.py:185-272 | a payload that parses is returned as parsed; one whose parse raises gives the canned artifact, for all four wrappers |
| GeneratorFacts.CollectedOutlineShape | generator/generator.py:86-97 | every kept outline section has a string title and list objectives and subtopics |
| GeneratorFacts.GeneratedOutlineShape | generator/generator.py:99-194 | whatever the model replies, the outline title is truthy, section titles are strings and the list fields are lists |
| GeneratorFacts.CollectedGuideShape | generator/generator.py:110-122 | every kept guide section has a string title and three list fields |
| GeneratorFacts.GeneratedGuideShape | generator/generator.py:197-220 | whatever the model replies, the guide's section titles are strings and its list fields are lists |
| GeneratorFacts.CollectedScriptShape | generator/generator.py:131-142 | every kept segment has string title, narration and screen directions |
| GeneratorFacts.GeneratedScriptShape | generator/generator.py:223-246 | whatever the model replies, every segment's title, narration and screen directions are strings |
| GeneratorFacts.ParsedStepsShape | generator/generator.py:151-162 | every kept step has an int number and string title and action |
| GeneratorFacts.GeneratedQuickRefShape | generator/generator.py:249-272 | whatever the model replies, every step number is an int and titles and actions are strings |
| GeneratorFacts.EmptyItemDefaults | generator/generator.py:88-160 | an empty dict item takes every default: `Untitled Section`/`Untitled Segment`/`Step`, `""`, `[]`, `None`, and step number count + 1 |
| GeneratorFacts.NullTitleIsNone | generator/generator.py:90-135 | a title present as null is not defaulted: `str(None)` gives `"None"` |
| GeneratorFacts.FalsyListIsEmpty | generator/generator.py:91-93 | a falsy list field becomes `[]` |
| GeneratorFacts.TruthyStringIsSplit | generator/generator.py:91-93 | a non-empty string in a list field is split by `list()` into its characters |
| GeneratorFacts.TruthyScalarDropsSection | generator/generator.py:91-97 | a truthy number or `True` in `objectives` or `subtopics` makes `list()` raise, and the section is skipped |
| GeneratorFacts.AbsentStepNumberCounts | generator/generator.py:155 | an item without `step_number` is numbered one more than the steps kept before it |
| GeneratorFacts.StepsPrefixStable | generator/generator.py:151-162 | later items never change the steps already kept |
| GeneratorFacts.ExplicitStepKept | generator/generator.py:155-158 | a lone `{"step_number": n}` gives step `n` titled `Step` with empty action and no notes |
| GeneratorFacts.AbsentAfterOne | generator/generator.py:155 | after one kept step, an item without a number is step 2 |
| GeneratorFacts.StepNumberExample | generator/generator.py:155-162 | raw numbers `[2, absent, "abc"]` give steps numbered `[2, 2]`: the second counts the one step kept, and `"abc"` (like null) makes `int()` raise and the step is dropped |
| GeneratorFacts.StepDropped | generator/generator.py:161-162 | a last item whose construction raises leaves the kept steps as they were |
| LlmOpenAi.FormatSourceExcerpt | generator/llm_openai.py:37-40 | empty text gets the best-practices notice; other text is `shorten`ed to at most 6000 characters |
| LlmOpenAi.OrEmpty | generator/llm_openai.py:82-105 | `v or []` is `v` when truthy and `[]` otherwise |
| LlmOpenAi.BuildOutlineSection | generator/llm_openai.py:79-88 | an outline item raises (and is skipped) exactly when it is not a dict |
| LlmOpenAi.BuildInstructorSection | generator/llm_openai.py:100-110 | a guide item is skipped exactly when it is not a dict |
| LlmOpenAi.BuildVideoSegment | generator/llm_openai.py:121-130 | a segment item is skipped exactly when it is not a dict |
| LlmOpenAi.BuildStep | generator/llm_openai.py:141-150 | a step item is skipped exactly when it is not a dict |
| LlmOpenAi.ParseOutline | generator/llm_openai.py:73-91 | the loop returns exactly `OutlineOf`: surviving sections in order and the truthy payload title or `"{course_title} ({class_type})"`; a non-dict payload or non-iterable `sections` raises |
| LlmOpenAi.ParseInstructorGuide | generator/llm_openai.py:94-112 | the loop returns exactly `GuideOf`, the surviving sections in order |
| LlmOpenAi.ParseVideoScript | generator/llm_openai.py:115-132 | the loop returns exactly `ScriptOf`, the surviving segments in order |
| LlmOpenAi.ParseQuickReference | generator/llm_openai.py:135-152 | the loop returns exactly `QuickReferenceOf`, the surviving steps in order |
| LlmOpenAiFacts.NonDictPayloadRaises | generator/llm_openai.py:74-136 | with no dict guard, every parser raises on a payload that is not a dict |
| LlmOpenAiFacts.OutlineTitle | generator/llm_openai.py:90 | the outline title is the payload title when truthy, otherwise `"{course_title} ({class_type})"` |
| LlmOpenAiFacts.EmptyItemDefaults | generator/llm_openai.py:80-147 | an empty dict takes every default, and an absent step number stays `None` |
| LlmOpenAiFacts.StepNumberVerbatim | generator/llm_openai.py:143 | a step number is stored as given: no `int()`, no positional default |
| LlmOpenAiFacts.DictItemsAllSurvive | generator/llm_openai.py:77-150 | on a list of dicts every item survives, in order |
| LlmOpenAiFacts.ValuesNotCoerced | generator/llm_openai.py:81-123 | values are stored uncoerced (an int title stays an int, a string `objectives` stays a string), where generator/generator.py applies `str()` and `list()` |
| LlmOpenAiFacts.SegmentBuildersAgree | generator/llm_openai.py:121-128 | on a dict whose texts are absent or strings, both segment builders give the same segment |
| LlmOpenAiFacts.ScriptParsersAgree | generator/llm_openai.py:115-132 | on a dict payload whose segments are such dicts, both script parsers give the same script |
| BackendTypes.DefaultsWhenOmitted | backend/models/types.py:5-57 | leaving out an optional field gives an empty list or `None`, and the required fields are kept |
| LlmStub.OutlineTemplate | generator/llm_stub.py:17-43 | the outline is titled `"{course_title} ({class_type})"` and has three sections of 10, 35 and 25 minutes (70 in all), every field of its annotated type |
| LlmStub.GuideTemplate | generator/llm_stub.py:46-75 | the guide's sections are Opening, Demonstration and Wrap-up, timed 8, 20 and 7 minutes |
| LlmStub.ScriptTemplate | generator/llm_stub.py:78-104 | three segments of 20, 60 and 25 seconds; the first narration welcomes the learner to the course by title |
| LlmStub.QuickRefTemplate | generator/llm_stub.py:107-118 | three steps numbered 1, 2, 3 in order, each with non-empty notes |
| LlmStub.OutlineSectionsFixed | generator/llm_stub.py:17-43 | the outline sections are the same for any source text, course title and class type; those reach only the title |
| LlmStub.GuideFixed | generator/llm_stub.py:46-75 | the guide is the same for any source text, course title and class type |
| LlmStub.ScriptFixed | generator/llm_stub.py:78-104 | the script ignores the source text and the class type |
| LlmStub.QuickRefFixed | generator/llm_stub.py:107-118 | the quick reference is the same for any source text, course title and class type |
| BackendLlm.OutlineTemplate | backend/services/llm.py:13-27 | the outline is titled with the course title alone, with sections of 10 and 30 minutes |
| BackendLlm.GuideTemplate | backend/services/llm.py:30-47 | the guide carries the course title; its two sections are timed 5 and 25 minutes |
| BackendLlm.ScriptTemplate | backend/services/llm.py:50-65 | the script carries the course title; its two segments last 45 and 75 seconds |
| BackendLlm.QuickRefTemplate | backend/services/llm.py:68-83 | the quick reference carries the course title; its steps are numbered 1, 2 in order |
| BackendLlm.OutlineFixed | backend/services/llm.py:13-27 | the outline does not depend on the source text |
| BackendLlm.GuideFixed | backend/services/llm.py:30-47 | the guide does not depend on the source text |
| BackendLlm.ScriptFixed | backend/services/llm.py:50-65 | the script does not depend on the source text |
| BackendLlm.QuickRefFixed | backend/services/llm.py:68-83 | the quick reference does not depend on the source text |
| Formatting.ArtifactsToMd | backend/services/formatting.py:66-72 | the result has exactly the keys `outline`, `instructor`, `video` and `qrg`, each the markdown of the matching record |
| Formatting.AppendLabelled | backend/services/formatting.py:15-34 | appends the caption line and one `- ` bullet per entry when the list is non-empty, and nothing otherwise |
| Formatting.AppendOutlineSection | backend/services/formatting.py:14-19 | appends exactly one section's lines: heading, objectives block, duration line |
| Formatting.AppendOutlineSections | backend/services/formatting.py:13-19 | the section loop appends the concatenation of every section's lines, in order |
| Formatting.OutlineToMarkdown | backend/services/formatting.py:11-20 | `outline_to_md` returns exactly `OutlineToMd`: the title heading then each section's lines, joined by blank lines |
| Formatting.AppendEntries | backend/services/formatting.py:27-34 | the inner loop appends the three labelled blocks in order |
| Formatting.AppendGuideSection | backend/services/formatting.py:26-36 | appends exactly one guide section's lines |
| Formatting.AppendGuideSections | backend/services/formatting.py:25-36 | the section loop appends every section's lines, in order |
| Formatting.InstructorToMarkdown | backend/services/formatting.py:23-37 | `instructor_to_md` returns exactly `InstructorToMd` |
| Formatting.AppendSegment | backend/services/formatting.py:43-51 | appends exactly one segment's lines |
| Formatting.AppendSegments | backend/services/formatting.py:42-51 | the segment loop appends every segment's lines, in order |
| Formatting.VideoToMarkdown | backend/services/formatting.py:40-52 | `video_to_md` returns exactly `VideoToMd` |
| Formatting.AppendStep | backend/services/formatting.py:58-62 | appends exactly one step's lines |
| Formatting.AppendSteps | backend/services/formatting.py:57-62 | the step loop appends every step's lines, in order |
| Formatting.QrgToMarkdown | backend/services/formatting.py:55-63 | `qrg_to_md` returns exactly `QrgToMd` |
| Formatting.EmptyArtifacts | backend/services/formatting.py:12-56 | an artifact with no sections, segments or steps renders as its heading alone |
| Formatting.BlocksSeparatedByBlankLine | backend/services/formatting.py:20 | two blocks are separated by one blank line |
| Formatting.GuideBlockOrder | backend/services/formatting.py:27-34 | the guide blocks come in the fixed order Learning Objectives, Talking Points, Suggested Activities, each only when non-empty |
| Formatting.NotDurationLine | backend/services/formatting.py:14-19 | a heading, caption or bullet line is never a duration line |
| Formatting.OutlineDurationRule | backend/services/formatting.py:18-19 | a section has a duration line exactly when its duration is set and non-zero; `0` and `None` add none |
| Formatting.EmptySegmentTextsOmitted | backend/services/formatting.py:43-51 | empty narration and empty screen directions are each left out with their caption; the line count is 1 + 2 per non-empty text + 1 for a set duration, and the narration follows its caption |
| Formatting.EmptyActionOmitted | backend/services/formatting.py:59-60 | a step has an action line exactly when its action is non-empty |
| Formatting.HeadingsCarryTitle | backend/services/formatting.py:12-56 | every document opens with its heading; the guide, script and quick reference headings carry the course title |
| Formatting.LabelledBlock | backend/services/formatting.py:32-34 | a labelled list is its caption followed by one bullet per entry, or nothing when there are no entries |
| Formatting.GuideTimingRule | backend/services/formatting.py:35-36 | a timing of `0` or `None` adds no line; any other adds exactly `_Timing: n minutes_` after the labelled lists |
| Formatting.SegmentDurationRule | backend/services/formatting.py:50-51 | a duration of `0` or `None` adds no line; any other adds exactly `_Duration: n seconds_` after the texts |
| MarkdownUtils.AppendBlock | generator/markdown_utils.py:18-22 | appends the heading, one `- ` line per item and a blank line when the list is non-empty, and nothing otherwise |
| MarkdownUtils.AppendTime | generator/markdown_utils.py:28-30 | appends the labelled value line and a blank line when the value is truthy, and nothing otherwise |
| MarkdownUtils.AppendOutlineSection | generator/markdown_utils.py:17-30 | appends exactly one section's lines: heading, Objectives and Subtopics blocks, duration |
| MarkdownUtils.AppendOutlineSections | generator/markdown_utils.py:16-30 | the section loop appends every section's lines, in order |
| MarkdownUtils.OutlineToMarkdown | generator/markdown_utils.py:12-32 | `outline_to_markdown` returns exactly `OutlineMarkdown`: the title heading, a blank line and each section's lines, joined by newlines and stripped |
| MarkdownUtils.AppendGuideSection | generator/markdown_utils.py:40-58 | appends exactly one guide section's lines |
| MarkdownUtils.AppendGuideSections | generator/markdown_utils.py:39-58 | the section loop appends every section's lines, in order |
| MarkdownUtils.InstructorGuideToMarkdown | generator/markdown_utils.py:35-60 | `instructor_guide_to_markdown` returns exactly `GuideMarkdown` |
| MarkdownUtils.AppendSegment | generator/markdown_utils.py:68-77 | appends exactly the lines of the segment numbered `idx` |
| MarkdownUtils.AppendSegments | generator/markdown_utils.py:67-77 | the `enumerate(..., start=1)` loop appends every segment's lines, segment k numbered k |
| MarkdownUtils.VideoScriptToMarkdown | generator/markdown_utils.py:63-79 | `video_script_to_markdown` returns exactly `ScriptMarkdown` |
| MarkdownUtils.AppendStep | generator/markdown_utils.py:87-91 | appends exactly one step's lines |
| MarkdownUtils.AppendSteps | generator/markdown_utils.py:86-91 | the step loop appends every step's lines, in order |
| MarkdownUtils.QuickRefToMarkdown | generator/markdown_utils.py:82-93 | `quick_ref_to_markdown` returns exactly `QuickRefMarkdown` |
| MarkdownUtils.EmptyOutline | generator/markdown_utils.py:14-32 | an outline with no sections renders as its title heading alone, right-stripped |
| MarkdownUtils.FixedHeading | generator/markdown_utils.py:37-60 | a heading followed by a blank line strips back to the heading |
| MarkdownUtils.EmptyArtifacts | generator/markdown_utils.py:37-84 | the guide, script and quick reference headings are fixed and carry no course title |
| MarkdownUtils.RenderingsAreTrimmed | generator/markdown_utils.py:32-93 | every rendering is stripped: it neither starts nor ends with whitespace |
| MarkdownUtils.BlockHeadings | generator/markdown_utils.py:18-27 | a block's heading occurs in it exactly when the list is truthy; no other heading line does |
| MarkdownUtils.OutlineBlocksPresence | generator/markdown_utils.py:18-27 | after the section heading, `### Objectives` and `### Subtopics` appear exactly when those lists are non-empty |
| MarkdownUtils.NotLabelled | generator/markdown_utils.py:17-27 | a heading, bullet or blank line is never a labelled value line |
| MarkdownUtils.OutlineDurationRule | generator/markdown_utils.py:28-30 | a section has a duration line exactly when its duration is truthy: `0` and `None` are both left out |
| MarkdownUtils.GuideTimeRule | generator/markdown_utils.py:56-58 | a guide section has an estimated-time line exactly when its time is truthy |
| MarkdownUtils.SegmentLayout | generator/markdown_utils.py:68-77 | segment k is headed `## Segment k: title`; the Narration and Screen Directions headings come with their texts even when empty; 9 lines with a duration and 8 without |
| MarkdownUtils.SegmentNumbering | generator/markdown_utils.py:67-68 | every segment's heading carries its 1-based position |
| MarkdownUtils.StepLayout | generator/markdown_utils.py:87-90 | a step always has its heading and action line; a notes line appears exactly when the notes are truthy |
| MarkdownExport.AppendBlock | generator/markdown_export.py:12-19 | appends the caption and one bulleted line per item when the list is non-empty, and nothing otherwise |
| MarkdownExport.AppendValue | generator/markdown_export.py:20-21 | appends the labelled value line exactly when the value is not `None` |
| MarkdownExport.AppendOutlineSection | generator/markdown_export.py:11-21 | appends exactly one section's lines |
| MarkdownExport.AppendOutlineSections | generator/markdown_export.py:10-21 | the section loop appends every section's lines, in order |
| MarkdownExport.OutlineToMarkdown | generator/markdown_export.py:8-22 | `outline_to_markdown` returns exactly `OutlineMarkdown`: lines joined by newlines, not stripped |
| MarkdownExport.AppendGuideSection | generator/markdown_export.py:28-42 | appends exactly one guide section's lines |
| MarkdownExport.AppendGuideSections | generator/markdown_export.py:27-42 | the section loop appends every section's lines, in order |
| MarkdownExport.InstructorGuideToMarkdown | generator/markdown_export.py:25-43 | `instructor_guide_to_markdown` returns exactly `GuideMarkdown` |
| MarkdownExport.AppendSegment | generator/markdown_export.py:49-55 | appends exactly the lines of the segment numbered `idx` |
| MarkdownExport.AppendSegments | generator/markdown_export.py:48-55 | the enumerate loop appends every segment's lines, segment k numbered k |
| MarkdownExport.VideoScriptToMarkdown | generator/markdown_export.py:46-56 | `video_script_to_markdown` returns exactly `ScriptMarkdown` |
| MarkdownExport.AppendStep | generator/markdown_export.py:62-65 | appends exactly one step's lines |
| MarkdownExport.AppendSteps | generator/markdown_export.py:61-65 | the step loop appends every step's lines, in order |
| MarkdownExport.QuickRefToMarkdown | generator/markdown_export.py:59-66 | `quick_ref_to_markdown` returns exactly `QuickRefMarkdown` |
| MarkdownExport.EmptyArtifacts | generator/markdown_export.py:9-60 | with nothing to list, each rendering is exactly its heading line |
| MarkdownExport.SectionHeadingsFollowBlankLine | generator/markdown_export.py:11 | every section heading line starts with a newline, so a blank line precedes it once joined |
| MarkdownExport.BlockCaptions | generator/markdown_export.py:12-19 | a block's caption occurs in it exactly when the list is truthy, and it holds no other caption |
| MarkdownExport.OutlineBlocks | generator/markdown_export.py:12-19 | objectives get `- ` bullets and subtopics `  - ` bullets, each under its caption, exactly when non-empty |
| MarkdownExport.OutlineDurationRule | generator/markdown_export.py:20-21 | a duration line appears exactly when the duration is not `None`, so `0` is written |
| MarkdownExport.SegmentNumbering | generator/markdown_export.py:48-49 | segments are headed `\n## Segment k: title`, numbered from 1 |
| MarkdownExport.SegmentTexts | generator/markdown_export.py:50-53 | the narration and screen-direction captions and texts are always written, even when empty |
| MarkdownExport.StepLayout | generator/markdown_export.py:63-65 | the action line is always written; a notes line exactly when the notes are truthy |
| MarkdownExport.ZeroDurationDiffers | generator/markdown_export.py:20-21 | on a zero duration the two exporters disagree: this one writes `**Duration:** 0 minutes`, generator/markdown_utils.py writes no duration line |
| StreamlitMarkdown.ForEach | streamlit_app.py:20-71 | `for x in value` over a list runs the block on each item, in order; any other value raises |
| StreamlitMarkdown.Or | streamlit_app.py:22-41 | `value or alt` is truthy exactly when one of the two is |
| StreamlitMarkdown.Labelled | streamlit_app.py:23-44 | a falsy list yields no lines; a non-empty list yields the bold caption followed by one `- ` bullet per entry |
| StreamlitMarkdown.JoinLines | streamlit_app.py:66 | `"\n\n".join(lines)` succeeds exactly when every line is a string |
| StreamlitMarkdown.FlatMapRSnoc | streamlit_app.py:20-71 | running the loop over one more item is the same as running the earlier items, then that item's block |
| StreamlitMarkdown.FlatMapRErrStands | streamlit_app.py:20-71 | once one item raises, the rest of the loop changes nothing: the error stands |
| StreamlitMarkdown.GuideEntriesSnoc | streamlit_app.py:36-44 | the loop over `(label, key)` pairs extends one pair at a time |
| StreamlitMarkdown.GuideEntriesErrStands | streamlit_app.py:36-44 | an error from one labelled list ends that loop |
| StreamlitMarkdown.AppendLabelled | streamlit_app.py:22-25 | the `if entries:` block appends exactly `Labelled`, or raises as it does |
| StreamlitMarkdown.AppendOutlineSection | streamlit_app.py:21-28 | appends exactly one section's lines, or raises as the section does |
| StreamlitMarkdown.AppendOutlineSections | streamlit_app.py:20-28 | the section loop appends every section's lines, in order, and stops at the first error |
| StreamlitMarkdown.OutlineToMarkdown | streamlit_app.py:18-29 | `outline_to_md` returns exactly `OutlineMd`; input that is no dict raises on `.get` |
| StreamlitMarkdown.AppendEntries | streamlit_app.py:36-44 | the inner loop appends the three labelled lists in their listed order |
| StreamlitMarkdown.AppendGuideSection | streamlit_app.py:35-47 | appends exactly one instructor section's lines |
| StreamlitMarkdown.AppendGuideSections | streamlit_app.py:34-47 | the section loop appends every section's lines, in order, and stops at the first error |
| StreamlitMarkdown.InstructorToMarkdown | streamlit_app.py:32-48 | `instructor_to_md` returns exactly `InstructorMd` |
| StreamlitMarkdown.AppendText | streamlit_app.py:55-62 | appends the caption and the text exactly when the text is truthy |
| StreamlitMarkdown.AppendSegment | streamlit_app.py:54-65 | appends exactly one segment's lines |
| StreamlitMarkdown.AppendSegments | streamlit_app.py:53-65 | the segment loop appends every segment's lines, in order, and stops at the first error |
| StreamlitMarkdown.VideoToMarkdown | streamlit_app.py:51-66 | `video_to_md` returns exactly `VideoMd`, including the `join` error on a line that is no string |
| StreamlitMarkdown.AppendStep | streamlit_app.py:72-80 | appends exactly one step's lines |
| StreamlitMarkdown.AppendSteps | streamlit_app.py:71-80 | the step loop appends every step's lines, in order, and stops at the first error |
| StreamlitMarkdown.QrgToMarkdown | streamlit_app.py:69-81 | `qrg_to_md` returns exactly `QrgMd` |
| StreamlitFacts.PyStrInt | streamlit_app.py:74 | formatting an integer in an f-string writes its decimal digits |
| StreamlitFacts.BulletsOfStrs | streamlit_app.py:25-44 | bullets over a JSON list of strings are the `- ` prefixed strings |
| StreamlitFacts.LabelledAgrees | streamlit_app.py:22-25 | on a string list, a labelled block is the block that backend/services/formatting.py writes |
| StreamlitFacts.FlatMapRForms | streamlit_app.py:20-71 | looping over the JSON forms of records gives the records' blocks, whenever each item's block does |
| StreamlitFacts.OutlineSectionAgrees | streamlit_app.py:21-28 | on the JSON form of a section, the section's lines equal `formatting.outline_to_md`'s |
| StreamlitFacts.OutlineItemsAgree | streamlit_app.py:20-28 | the same holds for the whole section loop |
| StreamlitFacts.OutlineAgrees | streamlit_app.py:18-29 | on an outline's JSON form, `outline_to_md` writes exactly what backend/services/formatting.py writes |
| StreamlitFacts.GuideEntryAgrees | streamlit_app.py:41-44 | on the JSON form, each of the three labelled lists renders as in formatting.py |
| StreamlitFacts.GuideEntriesStep | streamlit_app.py:36-44 | the labelled loop grows one pair at a time (a step used by the instructor proofs) |
| StreamlitFacts.GuideEntriesOfThree | streamlit_app.py:36-44 | over three keys, the loop is the three blocks concatenated in order |
| StreamlitFacts.GuideEntriesAgree | streamlit_app.py:36-44 | the whole labelled loop equals formatting.py's three entries |
| StreamlitFacts.GuideSectionAgrees | streamlit_app.py:35-47 | an instructor section's lines equal formatting.py's |
| StreamlitFacts.InstructorItemsAgree | streamlit_app.py:34-47 | the same holds for the whole section loop |
| StreamlitFacts.InstructorAgrees | streamlit_app.py:32-48 | on a guide's JSON form, `instructor_to_md` writes exactly what formatting.py writes |
| StreamlitFacts.StepAgrees | streamlit_app.py:72-80 | a step's lines equal formatting.py's |
| StreamlitFacts.QrgItemsAgree | streamlit_app.py:71-80 | the same holds for the whole step loop |
| StreamlitFacts.QrgAgrees | streamlit_app.py:69-81 | on a guide's JSON form, `qrg_to_md` writes exactly what formatting.py writes |
| StreamlitFacts.StrsAppend | streamlit_app.py:66 | JSON string lists concatenate item by item |
| StreamlitFacts.TextAgrees | streamlit_app.py:55-62 | a narration or screen-direction block agrees with formatting.py |
| StreamlitFacts.SecondsAgree | streamlit_app.py:63-65 | the seconds line agrees with formatting.py, and is absent for `None` and for 0 |
| StreamlitFacts.SegmentFields | streamlit_app.py:54-63 | the fields read from a segment's JSON form are the segment's own values |
| StreamlitFacts.SegmentValuesSplit | streamlit_app.py:54-65 | a segment's lines are its heading, two text blocks and its seconds line |
| StreamlitFacts.SegmentAgrees | streamlit_app.py:54-65 | a segment's lines are formatting.py's lines, as JSON strings |
| StreamlitFacts.SegmentValuesFlatten | streamlit_app.py:53-65 | over a list of segments, the loop's lines are formatting.py's lines, as JSON strings |
| StreamlitFacts.JoinStrs | streamlit_app.py:66 | joining JSON strings always succeeds, and gives the join of the strings |
| StreamlitFacts.SegmentsAgree | streamlit_app.py:53-65 | the segment loop, on the JSON form, agrees with formatting.py |
| StreamlitFacts.VideoAgrees | streamlit_app.py:51-66 | on a script's JSON form, `video_to_md` writes exactly what formatting.py writes |
| StreamlitFacts.MissingKeysDefaults | streamlit_app.py:19-70 | an empty dict renders as its heading alone, using the default title `Class Outline` or an empty course title |
| StreamlitFacts.MissingSectionKeys | streamlit_app.py:21-54 | an empty section renders as `## Section`, an empty segment as `## Segment` |
| StreamlitFacts.MissingGuideSectionKeys | streamlit_app.py:35-47 | an empty instructor section renders as `## Section` |
| StreamlitFacts.MissingStepKeys | streamlit_app.py:72-74 | an empty step renders as `## Step None: Step` |
| StreamlitFacts.MissingStepNumber | streamlit_app.py:72-74 | a step without `stepNumber` is headed `## Step None: ` and its title |
| StreamlitFacts.FalsyListRendersNothing | streamlit_app.py:22-42 | `or []` makes a missing, `None` or empty list render nothing |
| StreamlitFacts.NoObjectives | streamlit_app.py:21-28 | with falsy objectives, a section is its heading plus, when truthy, its duration |
| StreamlitFacts.MissingArtifactRaises | streamlit_app.py:89-98 | a missing artifact is `None`, and every renderer raises on it |
| StreamlitFacts.NullSectionsRaise | streamlit_app.py:20-71 | an explicit `None` list of sections, segments or steps raises, because `.get`'s default is not used and there is no `or []` |
| StreamlitFacts.NullNotIterable | streamlit_app.py:20 | iterating `None` raises, whatever the loop body |
| StreamlitFacts.WrongShapesRaise | streamlit_app.py:20-44 | a section that is no dict raises, and so does a truthy list field that is not iterable |
| StreamlitFacts.NonDictSectionRaises | streamlit_app.py:20-23 | an outline whose sections list holds a string raises on `.get` |
| StreamlitFacts.NonIterableGuideFieldRaises | streamlit_app.py:41-44 | a guide section whose `talkingPoints` is `True` raises when the list is iterated |
| StreamlitFacts.NonStringNarrationRaises | streamlit_app.py:55-66 | a truthy narration that is no string is appended as it is, and `join` raises |
| StreamlitFacts.NotDurationLine | streamlit_app.py:21-28 | a heading, caption or bullet line is never a duration line |
| StreamlitFacts.LabelledLines | streamlit_app.py:23-25 | every line of a labelled block starts with `*` or `-` |
| StreamlitFacts.OutlineDurationRule | streamlit_app.py:26-28 | a section has a `_Duration:` line exactly when the duration is truthy, so 0 writes none |
| StreamlitFacts.GuideEntriesLines | streamlit_app.py:36-44 | every line of the three labelled lists starts with `*` or `-` |
| StreamlitFacts.GuideTimingRule | streamlit_app.py:45-47 | a section has a `_Timing:` line exactly when the timing is truthy |
| StreamlitFacts.SegmentDurationRule | streamlit_app.py:54-65 | a segment has 1 + 2 + 2 + 1 lines, each part only when its value is truthy, and a truthy duration comes last |
| Audio.TranscriptEntries | generator/audio.py:30-47 | there is one entry per upload, in upload order, each entry being that upload's `TranscriptEntry` |
| Audio.TranscribeAudioFiles | generator/audio.py:18-49 | `transcribe_audio_files` returns exactly `Transcript`: `""` with no uploads and no client, the client's failure, or the stripped `"\n\n"` join of the entries |
| Audio.EntryShape | generator/audio.py:40-47 | a transcribed upload is its header, a newline and its text; an empty text is replaced by `[No speech detected in <name>]`; a failed call becomes `[Transcription failed for <name>: <error>]` |
| Audio.FirstEntryLeads | generator/audio.py:44-49 | the combined transcript starts with the first upload's header, or with its whole failure notice: `strip` removes nothing from the front |
| Audio.NoFilesNoClient | generator/audio.py:24-25 | with no uploads the result is `""` whatever `get_client()` would do |
| Audio.Texts | generator/audio.py:69 | the stripped narrations of the segments, one per segment, in order |
| Audio.ItemsRebuildPayloads | generator/audio.py:66-92 | inserting the items in order rebuilds exactly the payload dictionary |
| Audio.ItemsOfSynthesis | generator/audio.py:56-94 | the items fail exactly when the synthesis fails, with the same error, and otherwise rebuild its dictionary |
| Audio.TextsAppend | generator/audio.py:68-69 | one more string narration adds its stripped text at the end |
| Audio.TextsSnoc | generator/audio.py:68-69 | the same, for a prefix of the segments |
| Audio.PayloadsSnoc | generator/audio.py:68-92 | one more narration adds at most its own entry, at position `|texts| + 1` |
| Audio.AddNarration | generator/audio.py:69-92 | the loop body adds nothing for an empty narration, the audio under `segment_<idx>.wav`, or the UTF-8 error text under `segment_<idx>_ERROR.txt` |
| Audio.SynthesizeNarrationAudio | generator/audio.py:56-94 | `synthesize_narration_audio` returns exactly `Synthesize`: the client's failure, the `strip` error for a narration that is no string, or the payloads of every segment, numbered from 1 |
| Audio.KeysDistinct | generator/audio.py:87-92 | a `.wav` key never equals an `_ERROR.txt` key, and different positions never share a key |
| Audio.RecordedKept | generator/audio.py:88-92 | adding the entry of another position leaves what is recorded about a position unchanged |
| Audio.PayloadKeys | generator/audio.py:68-94 | each position records exactly its narration's outcome: no key for an empty narration, otherwise exactly one of the two keys; there are no keys for other positions |
| Audio.FreshPosition | generator/audio.py:87-92 | a map whose keys all belong to the first `n` positions has no key for position `n + 1` |
| Audio.SynthesisKeys | generator/audio.py:56-94 | in terms of the script, segment `k + 1` is recorded by its stripped narration, and every key belongs to a segment |
| AudioProcessing.TranscribeAudioFiles | generator/audio_processing.py:16-48 | `transcribe_audio_files` returns exactly `Transcript`: `""` with no uploads or with a missing key, otherwise the `"\n"` join of the non-empty transcripts of successful calls, in upload order |
| AudioProcessing.TranscriptsKept | generator/audio_processing.py:29-48 | at most one transcript per upload; each kept transcript is non-empty and is the text of some successful call |
| AudioProcessing.TranscriptsAppend | generator/audio_processing.py:36-48 | an upload adds its text exactly when the call succeeds with a non-empty text; a failure (reported only) or an empty text adds nothing |
| AudioProcessing.NoTranscript | generator/audio_processing.py:19-27 | without uploads, or when `get_client()` fails, the transcript is `""` |
| AudioProcessing.SafeTitle | generator/audio_processing.py:62 | the safe title is never empty |
| AudioProcessing.NameTail | generator/audio_processing.py:63 | what follows the padded index in a file name starts with `_` |
| AudioProcessing.Names | generator/audio_processing.py:61-63 | one file name per segment, `segment_{idx:02d}_{safe_title}.mp3`, with positions counted from 1 |
| AudioProcessing.Outcomes | generator/audio_processing.py:64-70 | the outcome of each segment's speech call, in segment order |
| AudioProcessing.PayloadsSnoc | generator/audio_processing.py:61-73 | one more segment adds its file under its name when the call succeeds, and adds nothing otherwise |
| AudioProcessing.NamesSnoc | generator/audio_processing.py:61-63 | one more segment appends its file name |
| AudioProcessing.OutcomesSnoc | generator/audio_processing.py:64-70 | one more segment appends its call's outcome |
| AudioProcessing.AssembleSnoc | generator/audio_processing.py:71-73 | a successful call stores its bytes under its name; a failed call leaves the map unchanged |
| AudioProcessing.SynthesizeNarrationAudio | generator/audio_processing.py:51-74 | `synthesize_narration_audio` returns exactly `Synthesize`: `{}` on a missing key, the `replace` error for a title that is no string, or the assembled payloads |
| AudioProcessing.AssembleKeys | generator/audio_processing.py:61-74 | with distinct names, each successful call has its bytes under its name, each failed call's name is absent, and there is no other key |
| AudioProcessing.FileNamesDistinct | generator/audio_processing.py:63 | the zero-padded index keeps the names of different positions apart, whatever the titles |
| AudioProcessing.SafeTitleShape | generator/audio_processing.py:62 | a safe title has no spaces and no upper-case ASCII letters; an empty title becomes `segment_<idx>` |
| AudioProcessing.SpeechInputRule | generator/audio_processing.py:68 | the speech input is the narration, or the title when the narration is empty |
| AudioProcessing.NamesDistinct | generator/audio_processing.py:61-63 | different segments get different file names |
| AudioProcessing.PayloadKeys | generator/audio_processing.py:51-74 | the payload map exactly: a successful segment's audio under its own name, no entry for a failed segment, and every key is some segment's name |
| AudioProcessing.NoClientNoPayloads | generator/audio_processing.py:55-59 | a missing key yields `{}` |
| Batch.KeepSlugChars | generator/batch_processor.py:25 | the deletion never lengthens the text, and keeps only word characters and `[-\s]` |
| Batch.SkipSeparators | generator/batch_processor.py:26 | a leading run of separators is dropped: the rest is a suffix that starts with no separator, and it is strictly shorter when there was a leading separator |
| Batch.CollapseSeparators | generator/batch_processor.py:26 | the substitution starts with `-` when the text starts with a separator, and otherwise with the text's first character |
| Batch.CollapseMakesSlug | generator/batch_processor.py:26 | on lower-cased kept characters, collapsing gives a slug: slug characters only, and never `--` |
| Batch.LoweredSuffix | generator/batch_processor.py:26 | a suffix of lower-cased kept characters is still made of them |
| Batch.ConsSlug | generator/batch_processor.py:26 | a slug character in front of a slug gives a slug unless it makes `--` |
| Batch.StripIsSlice | generator/batch_processor.py:25 | `strip()` returns a slice of its input |
| Batch.SliceKept | generator/batch_processor.py:25 | a slice of kept characters is made of kept characters |
| Batch.StripKeepsKept | generator/batch_processor.py:25 | the strip keeps only kept characters |
| Batch.LowerOfKept | generator/batch_processor.py:25 | lower-casing kept characters gives slug characters or whitespace |
| Batch.CleanedChars | generator/batch_processor.py:25 | the text before the last substitution holds only slug characters and whitespace |
| Batch.SlugifyMakesSlug | generator/batch_processor.py:19-27 | `slugify` always returns a slug: lower-case ASCII letters, digits, `_` and `-` only, with no `--` |
| Batch.SlugKept | generator/batch_processor.py:25 | the deletion leaves a slug unchanged |
| Batch.SlugTail | generator/batch_processor.py:26 | the tail of a slug is a slug, and a leading `-` is never followed by a separator |
| Batch.SlugCollapsed | generator/batch_processor.py:26 | the hyphen substitution leaves a slug unchanged |
| Batch.SlugUnstripped | generator/batch_processor.py:25 | the strip leaves a slug unchanged |
| Batch.SlugLowered | generator/batch_processor.py:25 | lower-casing leaves a slug unchanged |
| Batch.SlugIsFixed | generator/batch_processor.py:19-27 | `slugify` maps a slug to itself |
| Batch.SlugifyIdempotent | generator/batch_processor.py:19-27 | `slugify(slugify(v)) == slugify(v)` |
| Batch.SlugEdges | generator/batch_processor.py:25-26 | hyphens at either end survive: `slugify("-a_b-")` is `-a_b-` |
| Batch.StrippedNames | generator/batch_processor.py:44-45 | one stripped name per header name, in order |
| Batch.AbsentExactly | generator/batch_processor.py:48 | a header is reported missing exactly when it is required and absent from the names |
| Batch.MissingInOrder | generator/batch_processor.py:30-48 | the missing columns are listed in the order of `REQUIRED_HEADERS` |
| Batch.HeaderCheck | generator/batch_processor.py:32-55 | `parse_csv` returns the rows exactly when every required column is among the stripped header names; otherwise it raises `Error parsing CSV: Missing required columns: ...`, naming those missing |
| Batch.NoHeader | generator/batch_processor.py:44-50 | a CSV without a header line misses all four columns, listed in order |
| Batch.AudioEntries | generator/batch_processor.py:119-120 | one member per audio item, in order, under `<folder>/Audio/<name>` |
| Batch.FailureSticks | generator/batch_processor.py:63-120 | once an exception escapes, the later rows change nothing |
| Batch.WriteAudio | generator/batch_processor.py:119-120 | the audio loop writes exactly the folder's audio members, in item order |
| Batch.ProcessRow | generator/batch_processor.py:70-120 | one row writes exactly `RowEntries`: its outline, its script and its audio, or the synthesis exception |
| Batch.RunRow | generator/batch_processor.py:67-120 | row `i` of the loop advances the run exactly as `Partial` does |
| Batch.RunEnds | generator/batch_processor.py:66-120 | once every row is done, or one has failed, the run is final |
| Batch.ProcessBatch | generator/batch_processor.py:57-126 | `process_batch` returns exactly `BatchOutcome`, its ZIP members or escaping exception and its progress calls, when its row processor is `Processor(tools)` (proved by `ProcessorImplements`) |
| Batch.ProcessorImplements | generator/batch_processor.py:70-120 | `Processor(tools)` processes every row as the loop body does |
| Batch.FolderLayout | generator/batch_processor.py:70-81 | a folder is named `Class_<number>_` followed by a slug of at most 30 characters, and the number defaults to `000` |
| Batch.NameLayout | generator/batch_processor.py:80-81 | the same for any class number and description |
| Batch.DefaultNumber | generator/batch_processor.py:70 | the strip leaves the default `000` unchanged |
| Batch.SlugPrefix | generator/batch_processor.py:80 | cutting a slug to 30 characters gives a slug |
| Batch.LayoutShape | generator/batch_processor.py:100-120 | a folder holds `class_outline.md` and `video_script.md`, which decode back to the rendered markdown, then the audio members in order |
| Batch.LayoutInside | generator/batch_processor.py:102-120 | every member path lies inside the row's folder |
| Batch.WrittenLayout | generator/batch_processor.py:100-120 | a row fails exactly when its synthesis does, with that exception, and otherwise writes 2 members plus one per audio item, all inside its folder |
| Batch.RowLayout | generator/batch_processor.py:85-120 | the same, stated for a CSV row and its own folder name |
| Batch.RunCalls | generator/batch_processor.py:66-68 | there is at most one progress call per row started, each `(j, total, message of row j)`, none without a callback, and one per row when none failed |
| Batch.RunEntries | generator/batch_processor.py:66-120 | the run goes on exactly while no row has failed, and it holds every row's members in row order |
| Batch.RunFailure | generator/batch_processor.py:66-120 | a stopped run was stopped by the first failing row, with that row's exception |
| Batch.BatchMembers | generator/batch_processor.py:57-126 | the ZIP is made exactly when no row raises, and holds the rows' members in row order; otherwise the first failing row's exception escapes |
| Batch.BatchProgress | generator/batch_processor.py:66-123 | the callback hears of every row, numbered `j / total`, and then `1.0`; a failed run reports nothing at or above the whole; without a callback nothing is reported |
| HeyGen.Header | heygen_client.py:24-28 | a header is found exactly when some entry carries its name |
| HeyGen.GetHeaders | heygen_client.py:21-28 | `_get_headers` succeeds exactly when the key is set and non-empty; otherwise it raises the `HEYGEN_API_KEY is not set` error |
| HeyGen.HeadersRule | heygen_client.py:24-28 | a set key gives exactly three headers: the key under `x-api-key`, and `application/json` under `accept` and `Content-Type` |
| HeyGen.FailedText | heygen_client.py:100-119 | the error for a failed response is `HeyGenError: <action> failed: ` followed by the status code, a space and the response text |
| HeyGen.Reply | heygen_client.py:117-120 | a response that is not ok raises with its status; an ok one yields `resp.json()`, or the error that raises |
| HeyGen.PayloadShape | heygen_client.py:73-96 | the payload has one scene carrying the avatar, the voice with the script and the background colour; the dimension is width by height; the aspect ratio is `16:9`; the test flag is passed through |
| HeyGen.PayloadDefaults | heygen_client.py:60-63 | without keyword arguments the video is 1280 by 720 on `#FFFFFF`, with `test` false |
| HeyGen.NestedOrTop | heygen_client.py:104-141 | the lookup succeeds only on a dict |
| HeyGen.NestedOrTopRule | heygen_client.py:104-141 | a truthy value under `data` wins; otherwise the top-level value is taken, `None` when absent; a reply that is no dict, or whose `data` is no dict, raises |
| HeyGen.VideoId | heygen_client.py:104-107 | a returned id is always truthy |
| HeyGen.VideoIdRule | heygen_client.py:104-107 | an id is returned exactly when the lookup finds a truthy value; otherwise `video_id not found in response: <data>` is raised |
| HeyGen.VideoIdPlaces | heygen_client.py:104 | an id only under `data`, or only at the top, is found either way |
| HeyGen.Created | heygen_client.py:99-107 | a returned id is always truthy |
| HeyGen.CreatedRule | heygen_client.py:99-107 | a response that is not ok raises `Create avatar video failed`; an ok one yields the id read from its body, or the JSON error |
| HeyGen.CreateAvatarVideo | heygen_client.py:55-107 | without a key it raises before any request; otherwise it POSTs the payload to `/v2/video/generate` with the headers and reads the reply; an id it returns is truthy |
| HeyGen.GetVideoStatus | heygen_client.py:110-120 | without a key it raises the missing-key error before any request; with one it sends the status request and reads the reply as `Reply("Get video status", ...)` |
| HeyGen.GetVideoStatusRule | heygen_client.py:115-120 | the status request is a GET of `/v1/video_status.get` with the key headers and `video_id` as its one parameter; a response that is not ok raises `HeyGenError: Get video status failed: <code> <text>`, and an ok one yields `resp.json()` |
| HeyGen.IsTerminal | heygen_client.py:142 | the membership test succeeds unless the status is a list or a dict (unhashable), and it is true exactly for `completed` and `failed` |
| HeyGen.PollingEnds | heygen_client.py:136-148 | the loop ends on the first poll whose pass ends it, having gone on past every earlier one; otherwise it uses every poll and is still polling |
| HeyGen.PollingExhausts | heygen_client.py:136-148 | while every pass goes on, the loop uses every poll |
| HeyGen.WaitForVideo | heygen_client.py:123-148 | `wait_for_video` returns exactly `Waiting`: its outcome and the number of status requests made |
| HeyGen.StepContinues | heygen_client.py:137-148 | a pass goes on exactly when the status is readable, not final, and the deadline has not passed; a final status ends it with that reply; a non-final status past the deadline raises the timeout |
| HeyGen.FinalBeforeDeadline | heygen_client.py:142-146 | a final status is returned even after the deadline, because the status is looked at before the clock; at exactly the deadline the loop polls again (`>` and not `>=`) |
| HeyGen.WaitWithoutKey | heygen_client.py:21-137 | without a key the loop raises before any request is made |
| HeyGen.FinishedAtFirstFinal | heygen_client.py:136-143 | a returned reply is that of the first poll with a final status; every earlier poll let the loop go on; at least one request was made |
| HeyGen.StepFinished | heygen_client.py:142-143 | a pass that returns had a final status, and it returns that poll's reply |
| HeyGen.StepTimedOut | heygen_client.py:145-146 | a pass that raises on a readable status raises the timeout: not final, and past the deadline |
| HeyGen.TimeoutOnlyPastDeadline | heygen_client.py:136-148 | the timeout is raised only on a poll past the deadline whose status is not final, after polls that all let the loop go on |
| HeyGen.PollsUntilExhausted | heygen_client.py:136-148 | while every poll lets it go on, the loop uses them all and is still polling at the end |
| NotesOcr.Mime | notes_ocr.py:22 | the MIME type is never empty |
| NotesOcr.DataUrlDecodes | notes_ocr.py:19-24 | the data URL starts with `data:<mime>;base64,`, and its payload decodes back to exactly the bytes read; its length is the prefix plus 4 characters per 3 bytes, rounded up |
| NotesOcr.MimeDefault | notes_ocr.py:22 | a missing or empty `type` gives `image/png`; any other type is used as it is |
| NotesOcr.LabelRule | notes_ocr.py:47 | an image without a `name` is captioned `Image <idx>`; an empty name stays empty |
| NotesOcr.Numbered | notes_ocr.py:39 | one item per element, numbered from 1 |
| NotesOcr.NumberedSnoc | notes_ocr.py:39-80 | one more image appends its own chunk, numbered `i + 1` |
| NotesOcr.Chunks | notes_ocr.py:39-80 | one chunk per image |
| NotesOcr.ChunkAt | notes_ocr.py:46-80 | chunk `k` is the chunk of image `k + 1`: its label and the outcome of its vision call |
| NotesOcr.ReadImage | notes_ocr.py:46-78 | the loop body writes the header `=== Notes from <label> ===`, then the stripped transcription or `[Error reading this image: <e>]` |
| NotesOcr.ExtractTextFromNoteImages | notes_ocr.py:27-82 | `extract_text_from_note_images` returns exactly `NotesText`: `""` for no images, otherwise the stripped blank-line join of the chunks, in image order |
| NotesOcr.ChunkStartsWithHeader | notes_ocr.py:76-78 | every chunk, success or failure, opens with its header line |
| NotesOcr.FirstChunkLeads | notes_ocr.py:76-82 | the combined text opens with the first image's header: the final `strip` removes nothing from the front |
| NotesOcr.PrefixOfPrefix | notes_ocr.py:82 | a prefix of a prefix is a prefix |
| NotesOcr.ChunksAppend | notes_ocr.py:80-82 | chunks are separated by one blank line, and a later image only adds at the end |
| App.ValidateInputs | app.py:21-26 | an empty title is reported first; with a title and no files the missing upload is reported; with both the inputs pass with no message |
| App.FlagIffNoMessage | app.py:21-26 | the inputs pass exactly when the message is empty, and exactly when both a title and a file are given |
| TextExtraction.Label | generator/text_extraction.py:26 | the label is never empty: the file's name when it has one, `uploaded_file` otherwise |
| TextExtraction.Sections | generator/text_extraction.py:25-28 | one placeholder section per file, in upload order |
| TextExtraction.ExtractTextFromFiles | generator/text_extraction.py:14-30 | `extract_text_from_files` returns the blank-line join of the sections, which is `""` with no files |
| TextExtraction.NamelessFile | generator/text_extraction.py:26-28 | a nameless file gets the section of `uploaded_file` |
| TextExtraction.SectionPerFile | generator/text_extraction.py:28-30 | sections are separated by one blank line, and a later file only adds at the end |
| FileProcessing.RFind | generator/file_processing.py:53 | the index is -1 or a position of the character, and no later position holds it |
| FileProcessing.RFindAt | generator/file_processing.py:53 | the last occurrence is the one found |
| FileProcessing.SplitExt | generator/file_processing.py:53 | the root and the extension concatenate back to the name |
| FileProcessing.ExtractTextFromFiles | generator/file_processing.py:42-67 | `extract_text_from_files` returns the blank-line join of `Sections`: each present upload whose reader gives a non-empty text, labelled `[Source: name]`, in upload order |
| FileProcessing.ExtShape | generator/file_processing.py:53 | the extension is empty, or one dot followed by no further dot and no `/` |
| FileProcessing.ExtNeedsStem | generator/file_processing.py:53 | a non-empty extension follows a last path component holding a character that is no dot |
| FileProcessing.LeadingDotsAreNoExtension | generator/file_processing.py:53-62 | `.txt` and `..txt` have no extension, so a hidden `.txt` file is unsupported |
| FileProcessing.ExtExamples | generator/file_processing.py:53 | only the last dot counts (`a.tar.gz` gives `.gz`), the case is folded (`Notes.PDF` gives `.pdf`), and a dot in a directory name is ignored |
| FileProcessing.Dispatch | generator/file_processing.py:54-62 | `.pdf` goes to the PDF reader, `.docx` and `.doc` to the Word reader, `.txt` to the text reader; any other extension reads as `""` |
| FileProcessing.SectionsAppend | generator/file_processing.py:49-65 | the sections of a concatenation of uploads are the concatenation of their sections |
| FileProcessing.SkippedUploads | generator/file_processing.py:50-65 | a missing upload, an unsupported type and an empty text contribute nothing; a non-empty text contributes exactly its labelled section |
| FileProcessing.SectionsLabelled | generator/file_processing.py:64-65 | every section is the labelled, non-empty text of one of the uploads |
| BackendExtraction.Name | backend/services/extraction.py:17 | `path.name` is the final component, or `""` for a path without one |
| BackendExtraction.Snippets | backend/services/extraction.py:17 | one snippet per path, in order |
| BackendExtraction.FewPaths | backend/services/extraction.py:15-18 | no paths give `""`; one path gives its snippet alone |
| BackendExtraction.OneLinePerPath | backend/services/extraction.py:17-18 | one more path adds one more line after the others |
| BackendExtraction.OnlyFinalComponent | backend/services/extraction.py:17 | the directories a file sits in do not show in its snippet |
| TextWrap.FitFromIsMaximal | generator/generator.py:43 | greedy fitting keeps words while their join fits the budget, and stops only at a word that would not fit |
| TextWrap.ShortenWordsFits | generator/generator.py:43 | the shortened text never exceeds the width |
| Json.Lookup | generator/generator.py:90 | a key is found exactly when some member carries it |
| Json.Get | generator/generator.py:90 | `.get` succeeds exactly on a dict |
| Json.PyStr | generator/generator.py:90-157 | `str()` of a value that is no string is its Python repr, so a `None` title becomes `None` |
| Json.PyList | generator/generator.py:91-117 | `list()` succeeds exactly on a list, a string or a dict; a list gives its items and a string one item per character |
| Json.PyInt | generator/generator.py:155 | `int()` of an int is that int, and `int()` of `None`, a list or a dict raises |
| Json.NonNumericRaises | generator/generator.py:155 | a string starting with no whitespace, sign or digit, such as `abc`, makes `int()` raise |
| Json.IntOfStrRoundTrip | generator/generator.py:155 | `int(str(i)) == i` |
| Base64.Encode | notes_ocr.py:23 | the standard padded encoding has `4 * ceil(n / 3)` characters (section 4 of RFC 4648) |
| Base64.RoundTrip | notes_ocr.py:23 | decoding the encoding gives back exactly the bytes |
| Base64.EncodingAlphabet | notes_ocr.py:23 | the encoding uses only the base 64 alphabet, with `=` only in its last two characters |
| Utf8.EncodeChar | generator/audio.py:91 | a character takes 1 to 4 bytes, and one byte exactly when it is ASCII |
| Utf8.RoundTrip | generator/audio.py:91 | decoding the UTF-8 encoding of a text gives back its code points |
| Utf8.EncodeAppend | generator/batch_processor.py:102-113 | encoding distributes over concatenation |
| Utf8.AsciiBytes | generator/batch_processor.py:102-113 | ASCII text is its own encoding, one byte per character |
| Numbering.DecimalInjective | generator/audio.py:87-92 | `str(m) == str(n)` only when `m == n` |
| Numbering.Pad2Injective | generator/audio_processing.py:63 | `f"{m:02d}" == f"{n:02d}"` only when `m == n` |
| Numbering.Pad2Value | generator/audio_processing.py:63 | the zero-padded text is all digits and reads back as the number |
| Numbering.NumberedNamesDiffer | generator/audio.py:87-92 | names made of a prefix, a number and a rest starting with no digit are equal only for equal numbers and equal rests |
| Numbering.PaddedNamesDiffer | generator/audio_processing.py:63 | the same for zero-padded numbers |
| PyText.LStrip | generator/audio.py:69 | `lstrip` removes exactly a leading run of whitespace |
| PyText.RStrip | generator/audio.py:69 | `rstrip` removes exactly a trailing run of whitespace |
| PyText.Words | generator/generator.py:43 | `split()` gives non-empty words without whitespace |
| PyText.Lower | generator/batch_processor.py:25 | `lower()` maps each character on its own, preserving the length |
| PyText.ReplaceChar | generator/audio_processing.py:62 | `replace(" ", "_")` maps each character on its own, preserving the length |
| PyText.Take | generator/batch_processor.py:80 | `s[:n]` is the prefix of length `min(n, len(s))` |
| PyText.NatDecimal | generator/audio.py:87 | `str(n)` is a non-empty run of digits without a leading zero |

## Left out

- The language-model round trip: `_call_json_response`, the OpenAI call and `json.loads` in generator/generator.py:46-75 and generator/llm_openai.py:43-66. It is the parameter `llm`, which yields a decoded payload or the exception raised. Each `generate_*` wrapper is split into a prompt builder and a `*FromReply` function over that outcome.
- `st.error` and the other Streamlit calls: these are display side effects.
- Client construction and secret lookup (generator/openai_client.py): a client is a `Result` parameter. `MissingOpenAIKeyError` from `get_client()` is its `Err`.
- The pdfplumber and python-docx readers, OCR, speech-to-text and text-to-speech calls: these are oracles. Their internal behaviour is outside the core.
- The tempfile write in generator/audio_processing.py:30-46: this is file I/O. The model keeps the bytes that are given to the speech-to-text oracle.
- `save_uploaded_files` (backend/services/extraction.py:5-12): this is file I/O.
- The UTF-8 decoding and `csv.DictReader` tokenisation in generator/batch_processor.py:39-52: these are given as their outcome, the header names plus rows keyed by stripped name, or the exception text. The `None` values that DictReader puts in short rows are not modelled, because cells are strings.
- ZIP/DEFLATE encoding in generator/batch_processor.py:61-126: the archive is its list of (path, content) entries in write order.
- Unicode: `slugify`, `safe_title`, `str.lower` and `str.isspace` are restricted to ASCII, so `\w` is ASCII letters, digits and `_`. Unicode case mapping and normalisation are not modelled.
- Floats: durations and step numbers are integers, `int()` on a float is not modelled, and batch progress is a pair of counts (done, total) rather than a fraction.
- The messages of Python's built-in exceptions are simplified. Each `Err` keeps the exception's class name and a fixed text, but not the type or value Python names. Examples: `KeyError: '<key>'`, `AttributeError: object has no attribute 'get'`, `TypeError: object is not iterable`, `ValueError: invalid literal for int() with base 10`. The messages of the source's own `HeyGenError`s are reproduced in full.
- TextWrap.Shorten: hyphen breaking is not modelled; the model treats whitespace-separated words as the only units. Python's `shorten` can keep the part of a hyphenated word up to its hyphen, where the model drops the whole word. Python also breaks overlong words, but that never changes the result, because the broken piece fills the line and is dropped to make room for the placeholder.
- HeyGen HTTP, routes and the clock:
  - `requests` is an oracle from request to response, and `json.dumps` of the payload is kept as the `Json` value.
  - `list_avatars` and `list_voices` are left out: they are HTTP wrappers with no logic to prove.
  - `time.sleep`, `poll_interval` and the real clock are replaced by the elapsed time read after each poll.
  - The polls form a finite trace, so a loop that has not ended when the trace runs out is `StillPolling`.
  - `resp.ok` is taken from the response as given, so its tie to the status code is not modelled, and neither are the exceptions `requests` itself raises.
- HeyGen.CreateAvatarVideo: it returns the `video_id` as the `Json` value found, and is proved truthy but not proved a string. The source annotates the result as a string, but it never converts it.
- backend/services/pipeline.py: `build_artifacts` calls two-parameter functions with four arguments, so as written it raises `TypeError`. It is not modelled as an orchestrator.
- app.py:73 passes `artifacts.dict()` to `artifacts_to_md`, whose renderers use attribute access and would raise. `Formatting` is modelled over typed records only.
- The user interface: everything in app.py except `_validate_inputs`, everything in streamlit_app.py outside lines 18-81, backend/routes, backend/main.py and heygen_debug.py. These are UI and route wiring.
- run_app.py: all of its launcher code is unreachable after a `return`.
- build_exe.py (packaging) and generator/__init__.py (re-exports only): neither holds logic of the core.
- The tail of generator/llm_openai.py after line 199: it is cut off mid-expression, so its `generate_*` wrappers are not modelled.
- MarkdownUtils and MarkdownExport renderers: they require the list and string shapes their type hints promise. `GeneratorFacts.Generated*Shape` proves that the `Generator` wrappers deliver those shapes. Records built by `LlmOpenAi`, which stores raw values, are not covered.
- AudioProcessing.TranscribeAudioFiles: the source catches only `OpenAIError` and `OSError`. Every failure of the oracle is taken as one of those.
- AudioProcessing.SynthesizeNarrationAudio: the source catches only `OpenAIError` around `speech.create` and `response.read()`. Every failure of the text-to-speech oracle is taken as a caught `OpenAIError`, so the model does not capture another exception escaping the function.
- Json.Lookup: a dict is a member list whose keys are taken to be distinct, and the lookup returns the first member under a key. When a JSON text repeats a key, `json.loads` keeps the last value; that decoding happens inside the model-call oracle, which yields the decoded dict. The model does not capture a member list with a repeated key. `HeyGen.Header` reads the source's header dict literal, which has distinct keys.
- FileProcessing.ExtractTextFromFiles: a `file.name` of `None` is not modelled, because uploaded names are strings.
- NotesOcr.ReadImage: reading the upload (`seek(0)` then `read()`) is taken to give the file's bytes.
- Behaviour the code does not have is not added: no step renumbering, per-row failure isolation, retries or degraded-generation signals.
