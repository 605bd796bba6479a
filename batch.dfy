/**
 * generator/batch_processor.py: a CSV of classes becomes a ZIP with one folder per row,
 * holding the row's outline, its video script and the narration audio.
 *
 * The CSV reader (UTF-8 decoding and `csv.DictReader` tokenisation) is given as its
 * outcome: the header names and the rows keyed by the stripped names, or the text of the
 * exception it raised. The ZIP is given as its list of entries.
 */
module Batch {
  import opened Bytes
  import opened Wrappers
  import opened PyText
  import opened Lines
  import opened GeneratorModels
  import Generator
  import MarkdownUtils
  import Audio
  import Utf8

  // ---------------------------------------------------------------------
  // slugify
  // ---------------------------------------------------------------------

  /** `\w` on ASCII: letters, digits and the underscore. */
  predicate IsWordChar(c: char)
  {
    'a' <= c <= 'z' || 'A' <= c <= 'Z' || '0' <= c <= '9' || c == '_'
  }

  /** A character of the class `[-\s]`. */
  predicate IsSeparator(c: char)
  {
    c == '-' || IsSpace(c)
  }

  /** `re.sub(r'[^\w\s-]', '', value)`: every character outside `[\w\s-]` deleted. */
  function KeepSlugChars(s: string): (r: string)
    ensures |r| <= |s|
    ensures forall i :: 0 <= i < |r| ==> IsWordChar(r[i]) || IsSeparator(r[i])
  {
    if s == [] then []
    else (if IsWordChar(s[0]) || IsSeparator(s[0]) then [s[0]] else []) + KeepSlugChars(s[1..])
  }

  /** What a leading run of `[-\s]` leaves behind. */
  function SkipSeparators(s: string): (r: string)
    ensures |r| <= |s| && r == s[|s| - |r|..]
    ensures r == [] || !IsSeparator(r[0])
    ensures s != [] && IsSeparator(s[0]) ==> |r| < |s|
  {
    if s != [] && IsSeparator(s[0]) then SkipSeparators(s[1..]) else s
  }

  /** `re.sub(r'[-\s]+', '-', value)`: each run of separators replaced by one hyphen. */
  function CollapseSeparators(s: string): (r: string)
    ensures s != [] ==> r != [] && r[0] == (if IsSeparator(s[0]) then '-' else s[0])
    decreases |s|
  {
    if s == [] then []
    else if IsSeparator(s[0]) then "-" + CollapseSeparators(SkipSeparators(s))
    else [s[0]] + CollapseSeparators(s[1..])
  }

  /** The text before the last substitution: foreign characters deleted, stripped, lower-cased. */
  function Cleaned(value: string): string
  {
    Lower(Strip(KeepSlugChars(value)))
  }

  /** `slugify(value)` */
  function Slugify(value: string): string
  {
    CollapseSeparators(Cleaned(value))
  }

  /** A character a slug may hold: a lower-case letter, a digit, `_` or `-`. */
  predicate IsSlugChar(c: char)
  {
    'a' <= c <= 'z' || '0' <= c <= '9' || c == '_' || c == '-'
  }

  /** No whitespace, no upper case, no doubled hyphen. */
  predicate IsSlug(s: string)
  {
    (forall i :: 0 <= i < |s| ==> IsSlugChar(s[i]))
    && forall i :: 0 <= i < |s| - 1 ==> !(s[i] == '-' && s[i + 1] == '-')
  }

  /** Characters that survive the deletion and the lower-casing. */
  predicate IsLoweredChar(c: char)
  {
    IsSlugChar(c) || IsSpace(c)
  }

  lemma {:induction false} CollapseMakesSlug(s: string)
    requires forall i :: 0 <= i < |s| ==> IsLoweredChar(s[i])
    ensures IsSlug(CollapseSeparators(s))
    decreases |s|
  {
    if s != [] {
      if IsSeparator(s[0]) {
        var rest := SkipSeparators(s);
        LoweredSuffix(s, |s| - |rest|);
        CollapseMakesSlug(rest);
        ConsSlug('-', CollapseSeparators(rest));
        assert CollapseSeparators(s) == "-" + CollapseSeparators(rest);
      } else {
        LoweredSuffix(s, 1);
        CollapseMakesSlug(s[1..]);
        ConsSlug(s[0], CollapseSeparators(s[1..]));
      }
    }
  }

  /** A suffix of lowered text is lowered text. */
  lemma LoweredSuffix(s: string, k: nat)
    requires k <= |s| && forall i :: 0 <= i < |s| ==> IsLoweredChar(s[i])
    ensures forall i :: 0 <= i < |s[k..]| ==> IsLoweredChar(s[k..][i])
  {
    forall i | 0 <= i < |s[k..]| ensures IsLoweredChar(s[k..][i]) {
      assert s[k..][i] == s[k + i];
    }
  }

  /** A slug character before a slug is a slug, unless it makes a doubled hyphen. */
  lemma ConsSlug(c: char, t: string)
    requires IsSlugChar(c) && IsSlug(t)
    requires c == '-' && t != [] ==> t[0] != '-'
    ensures IsSlug([c] + t)
  {
    var u := [c] + t;
    forall i | 0 <= i < |u| ensures IsSlugChar(u[i]) {
      if i > 0 { assert u[i] == t[i - 1]; }
    }
    forall i | 0 <= i < |u| - 1 ensures !(u[i] == '-' && u[i + 1] == '-') {
      if i > 0 { assert u[i] == t[i - 1] && u[i + 1] == t[i]; }
    }
  }

  /** `strip()` keeps a contiguous slice. */
  lemma StripIsSlice(s: string)
    ensures exists lo, hi :: 0 <= lo <= hi <= |s| && Strip(s) == s[lo..hi]
  {
    var l := LStrip(s);
    var lo := |s| - |l|;
    var r := RStrip(l);
    assert r == s[lo..lo + |r|];
  }

  lemma SliceKept(k: string, lo: nat, hi: nat)
    requires lo <= hi <= |k| && forall i :: 0 <= i < |k| ==> IsWordChar(k[i]) || IsSeparator(k[i])
    ensures var t := k[lo..hi]; forall i :: 0 <= i < |t| ==> IsWordChar(t[i]) || IsSeparator(t[i])
  {
    var t := k[lo..hi];
    forall i | 0 <= i < |t| ensures IsWordChar(t[i]) || IsSeparator(t[i]) {
      assert t[i] == k[lo + i];
    }
  }

  lemma StripKeepsKept(k: string)
    requires forall i :: 0 <= i < |k| ==> IsWordChar(k[i]) || IsSeparator(k[i])
    ensures var t := Strip(k); forall i :: 0 <= i < |t| ==> IsWordChar(t[i]) || IsSeparator(t[i])
  {
    StripIsSlice(k);
    var lo, hi :| 0 <= lo <= hi <= |k| && Strip(k) == k[lo..hi];
    SliceKept(k, lo, hi);
  }

  lemma LowerOfKept(t: string)
    requires forall i :: 0 <= i < |t| ==> IsWordChar(t[i]) || IsSeparator(t[i])
    ensures var u := Lower(t); forall i :: 0 <= i < |u| ==> IsLoweredChar(u[i])
  {
  }

  lemma CleanedChars(value: string)
    ensures var t := Cleaned(value); forall i :: 0 <= i < |t| ==> IsLoweredChar(t[i])
  {
    var k := KeepSlugChars(value);
    StripKeepsKept(k);
    var t := Strip(k);
    LowerOfKept(t);
    assert Cleaned(value) == Lower(t);
  }

  /** The result of `slugify` is a slug: no whitespace, no `--`, lower case only. */
  lemma SlugifyMakesSlug(value: string)
    ensures IsSlug(Slugify(value))
  {
    CleanedChars(value);
    CollapseMakesSlug(Cleaned(value));
  }

  lemma {:induction false} SlugKept(s: string)
    requires IsSlug(s)
    ensures KeepSlugChars(s) == s
    decreases |s|
  {
    if s != [] {
      SlugKept(s[1..]);
    }
  }

  lemma SlugTail(s: string)
    requires IsSlug(s) && s != []
    ensures IsSlug(s[1..])
    ensures |s| > 1 ==> !IsSeparator(s[1]) || s[0] != '-'
  {
    if |s| > 1 {
      assert IsSlugChar(s[1]);
      assert !(s[0] == '-' && s[1] == '-');
    }
    assert forall i :: 0 <= i < |s| - 1 ==> s[1..][i] == s[i + 1];
  }

  lemma {:induction false} SlugCollapsed(s: string)
    requires IsSlug(s)
    ensures CollapseSeparators(s) == s
    decreases |s|
  {
    if s != [] {
      var tail := s[1..];
      SlugTail(s);
      SlugCollapsed(tail);
      if IsSeparator(s[0]) {
        assert tail == [] || !IsSeparator(tail[0]);
        assert SkipSeparators(s) == tail;
      }
      assert CollapseSeparators(s) == [s[0]] + tail;
      assert [s[0]] + tail == s;
    }
  }

  lemma SlugUnstripped(s: string)
    requires IsSlug(s)
    ensures Strip(s) == s
  {
    if s != [] {
      assert IsSlugChar(s[0]) && IsSlugChar(s[|s| - 1]);
      assert LStrip(s) == s;
      assert RStrip(s) == s;
    }
  }

  lemma SlugLowered(s: string)
    requires IsSlug(s)
    ensures Lower(s) == s
  {
    assert forall i :: 0 <= i < |s| ==> IsSlugChar(s[i]) && Lower(s)[i] == s[i];
  }

  /** A slug passes through `slugify` unchanged, so `slugify` is idempotent. */
  lemma SlugIsFixed(s: string)
    requires IsSlug(s)
    ensures Slugify(s) == s
  {
    SlugKept(s);
    SlugUnstripped(s);
    SlugLowered(s);
    SlugCollapsed(s);
  }

  lemma SlugifyIdempotent(value: string)
    ensures Slugify(Slugify(value)) == Slugify(value)
  {
    SlugifyMakesSlug(value);
    SlugIsFixed(Slugify(value));
  }

  /** Underscores and hyphens at either end survive. */
  lemma SlugEdges()
    ensures Slugify("-a_b-") == "-a_b-"
  {
    var s := "-a_b-";
    assert IsSlug(s);
    SlugIsFixed(s);
  }

  // ---------------------------------------------------------------------
  // parse_csv
  // ---------------------------------------------------------------------

  /** A CSV row: column name to cell text. */
  type Row = map<string, string>

  /** What the CSV reader produced: the header names as written, and the rows. */
  datatype CsvTable = CsvTable(fieldnames: seq<string>, rows: seq<Row>)

  const RequiredHeaders: seq<string> := ["#", "video_file", "est_duration", "brief_description"]

  /** The header names with surrounding whitespace stripped. */
  function StrippedNames(fieldnames: seq<string>): (r: seq<string>)
    ensures |r| == |fieldnames| && forall k :: 0 <= k < |fieldnames| ==> r[k] == Strip(fieldnames[k])
  {
    seq(|fieldnames|, k requires 0 <= k < |fieldnames| => Strip(fieldnames[k]))
  }

  /** `[h for h in required if h not in names]` */
  function Absent(required: seq<string>, names: seq<string>): seq<string>
  {
    if required == [] then []
    else
      var h := required[|required| - 1];
      Absent(required[..|required| - 1], names) + (if h in names then [] else [h])
  }

  /** A required name is reported exactly when it is not among the names. */
  lemma {:induction false} AbsentExactly(required: seq<string>, names: seq<string>)
    ensures forall h :: h in Absent(required, names) <==> h in required && h !in names
  {
    if required != [] {
      var init := required[..|required| - 1];
      AbsentExactly(init, names);
      assert required == init + [required[|required| - 1]];
    }
  }

  function MissingHeaders(fieldnames: seq<string>): seq<string>
  {
    Absent(RequiredHeaders, StrippedNames(fieldnames))
  }

  /** The missing columns are reported in the order of `REQUIRED_HEADERS`. */
  lemma MissingInOrder(fieldnames: seq<string>)
    ensures var names := StrippedNames(fieldnames);
      MissingHeaders(fieldnames)
      == (if "#" in names then [] else ["#"])
       + (if "video_file" in names then [] else ["video_file"])
       + (if "est_duration" in names then [] else ["est_duration"])
       + (if "brief_description" in names then [] else ["brief_description"])
  {
    var names := StrippedNames(fieldnames);
    var r := RequiredHeaders;
    assert r[..3] == ["#", "video_file", "est_duration"];
    assert r[..3][..2] == ["#", "video_file"];
    assert r[..3][..2][..1] == ["#"];
    assert ["#"][..0] == [];
    assert Absent(["#"], names) == (if "#" in names then [] else ["#"]);
    assert Absent(["#", "video_file"], names) == Absent(["#"], names) + (if "video_file" in names then [] else ["video_file"]);
    assert Absent(["#", "video_file", "est_duration"], names)
      == Absent(["#", "video_file"], names) + (if "est_duration" in names then [] else ["est_duration"]);
  }

  /** `BatchProcessor().parse_csv(file_buffer)`, given what the CSV reader made of the buffer. */
  function ParseCsv(table: Result<CsvTable>): Result<seq<Row>>
  {
    match table
    case Err(e) => Err("Error parsing CSV: " + e)
    case Ok(t) =>
      var missing := MissingHeaders(t.fieldnames);
      if missing != [] then Err("Error parsing CSV: Missing required columns: " + Join(missing, ", "))
      else Ok(t.rows)
  }

  /**
   * The rows come back exactly when every required column is among the stripped header
   * names; otherwise the error names the missing ones.
   */
  lemma HeaderCheck(t: CsvTable)
    ensures ParseCsv(Ok(t)).Ok? <==> forall h :: h in RequiredHeaders ==> h in StrippedNames(t.fieldnames)
    ensures ParseCsv(Ok(t)).Ok? ==> ParseCsv(Ok(t)).value == t.rows
    ensures ParseCsv(Ok(t)).Err? ==>
      ParseCsv(Ok(t)).error == "Error parsing CSV: Missing required columns: " + Join(MissingHeaders(t.fieldnames), ", ")
  {
    AbsentExactly(RequiredHeaders, StrippedNames(t.fieldnames));
    var missing := MissingHeaders(t.fieldnames);
    if missing != [] {
      assert missing[0] in missing;
    }
  }

  /** A file without a header line misses every column, listed in order. */
  lemma NoHeader(rows: seq<Row>)
    ensures ParseCsv(Ok(CsvTable([], rows))) == Err("Error parsing CSV: Missing required columns: " + Join(RequiredHeaders, ", "))
  {
    MissingInOrder([]);
    assert MissingHeaders([]) == RequiredHeaders;
  }

  // ---------------------------------------------------------------------
  // process_batch
  // ---------------------------------------------------------------------

  const ClassType := "Video Walkthrough"

  /** `row.get(key, default)` */
  function Cell(row: Row, key: string, default: string): string
  {
    if key in row then row[key] else default
  }

  function ClassNumber(row: Row): string
  {
    Strip(Cell(row, "#", "000"))
  }

  function Description(row: Row): string
  {
    Cell(row, "brief_description", "")
  }

  /** `f"Class_{class_number}_{slug}"` with the slug cut to 30 characters. */
  function FolderName(row: Row): string
  {
    "Class_" + ClassNumber(row) + "_" + Take(Slugify(Description(row)), 30)
  }

  /** The synthetic source text the generators are given for a row. */
  function ContextText(row: Row): string
  {
    "Video File Reference: " + Cell(row, "video_file", "") + "\n"
      + "Estimated Duration: " + Cell(row, "est_duration", "N/A") + "\n"
      + "Description/Context: " + Description(row) + "\n"
  }

  function OutlineTitle(row: Row): string
  {
    "Class " + ClassNumber(row) + ": " + Description(row)
  }

  /** A ZIP member: its path and its bytes (text is written as UTF-8). */
  datatype Entry = Entry(path: string, content: seq<byte>)

  /** The audio members of a folder, one per synthesized item, in order. */
  function AudioEntries(folder: string, items: seq<(string, seq<byte>)>): (r: seq<Entry>)
    ensures |r| == |items|
    ensures forall k :: 0 <= k < |items| ==> r[k] == Entry(folder + "/Audio/" + items[k].0, items[k].1)
  {
    seq(|items|, k requires 0 <= k < |items| => Entry(folder + "/Audio/" + items[k].0, items[k].1))
  }

  /**
   * What a row is handed to: the two generators (source text, title, class type), the two
   * renderers, and `synthesize_narration_audio(...).items()`.
   */
  datatype Tools = Tools(
    outline: (string, string, string) -> ClassOutline,
    script: (string, string, string) -> VideoScript,
    outlineMarkdown: ClassOutline -> string,
    scriptMarkdown: VideoScript -> string,
    audio: VideoScript -> Result<seq<(string, seq<byte>)>>)

  /** The tools generator/batch_processor.py imports; `llm` is the model call, `client` the speech client. */
  function SourceTools(llm: Generator.Llm, client: Result<Audio.Tts>): Tools
  {
    Tools(
      (fullText, courseTitle, classType) => Generator.GenerateClassOutline(llm, fullText, courseTitle, classType),
      (fullText, courseTitle, classType) => Generator.GenerateVideoScript(llm, fullText, courseTitle, classType),
      MarkdownUtils.OutlineMarkdown,
      MarkdownUtils.ScriptMarkdown,
      script => Audio.SynthesizedItems(script, client))
  }

  /** The members a row's folder receives: the outline, the script, then the narration audio. */
  function Layout(folder: string, outlineMarkdown: string, scriptMarkdown: string, items: seq<(string, seq<byte>)>): seq<Entry>
  {
    [Entry(folder + "/class_outline.md", Utf8.Encode(outlineMarkdown)),
     Entry(folder + "/video_script.md", Utf8.Encode(scriptMarkdown))]
    + AudioEntries(folder, items)
  }

  /**
   * The members one row writes, or the exception that escapes while processing it. The
   * generators never raise; the narration synthesis can.
   */
  function RowEntries(row: Row, tools: Tools): Result<seq<Entry>>
  {
    var outline := tools.outline(ContextText(row), OutlineTitle(row), ClassType);
    var script := tools.script(ContextText(row), OutlineTitle(row), ClassType);
    match tools.audio(script)
    case Err(e) => Err(e)
    case Ok(items) =>
      Ok(Layout(FolderName(row), tools.outlineMarkdown(outline), tools.scriptMarkdown(script), items))
  }

  /** One call of the progress callback: the fraction `done / total` and the message. */
  datatype Progress = Progress(done: nat, total: nat, message: string)

  const FinalProgress := Progress(1, 1, "Structuring final ZIP package...")

  /** The message before a row; indexing the row raises when a column is absent. */
  function ProgressMessage(row: Row): Result<string>
  {
    if "#" !in row then Err("KeyError: '#'")
    else if "brief_description" !in row then Err("KeyError: 'brief_description'")
    else Ok("Processing Class " + row["#"] + ": " + Take(row["brief_description"], 30) + "...")
  }

  /** What processing a row yields: its members, or the exception it raises. */
  type RowProcessor = Row -> Result<seq<Entry>>

  function Processor(tools: Tools): RowProcessor
  {
    row => RowEntries(row, tools)
  }

  /** The state after some rows: members written, progress reported, and the exception, if one escaped. */
  datatype Run = Run(entries: seq<Entry>, calls: seq<Progress>, failure: Option<string>)

  /** The run after the first `n` rows; once an exception escapes nothing more happens. */
  function Partial(rows: seq<Row>, n: nat, reporting: bool, process: RowProcessor): Run
    requires n <= |rows|
  {
    if n == 0 then Run([], [], None)
    else
      var before := Partial(rows, n - 1, reporting, process);
      if before.failure.Some? then before
      else Step(before, rows[n - 1], n - 1, |rows|, reporting, process)
  }

  /** Row `i` of `total`: report progress (when a callback is given), then write the row's members. */
  function Step(before: Run, row: Row, i: nat, total: nat, reporting: bool, process: RowProcessor): Run
  {
    var message := ProgressMessage(row);
    if reporting && message.Err? then Run(before.entries, before.calls, Some(message.error))
    else
      var calls := if reporting then before.calls + [Progress(i, total, message.value)] else before.calls;
      match process(row)
      case Err(e) => Run(before.entries, calls, Some(e))
      case Ok(es) => Run(before.entries + es, calls, None)
  }

  /** `process_batch(rows, progress_callback)`: the ZIP members or the escaping exception, and the progress calls made. */
  function BatchOutcome(rows: seq<Row>, reporting: bool, process: RowProcessor): (Result<seq<Entry>>, seq<Progress>)
  {
    var run := Partial(rows, |rows|, reporting, process);
    if run.failure.Some? then (Err(run.failure.value), run.calls)
    else (Ok(run.entries), run.calls + (if reporting then [FinalProgress] else []))
  }

  /** An escaped exception ends the run: the later rows change nothing. */
  lemma {:induction false} FailureSticks(rows: seq<Row>, n: nat, m: nat, reporting: bool, process: RowProcessor)
    requires n <= m <= |rows| && Partial(rows, n, reporting, process).failure.Some?
    ensures Partial(rows, m, reporting, process) == Partial(rows, n, reporting, process)
    decreases m - n
  {
    if n < m {
      FailureSticks(rows, n, m - 1, reporting, process);
    }
  }

  /** `for audio_name, audio_bytes in audio_files.items(): zip_file.writestr(...)` */
  method WriteAudio(written: seq<Entry>, folder: string, items: seq<(string, seq<byte>)>) returns (out: seq<Entry>)
    ensures out == written + AudioEntries(folder, items)
  {
    out := written;
    var i := 0;
    while i < |items|
      invariant 0 <= i <= |items|
      invariant out == written + AudioEntries(folder, items[..i])
    {
      var (name, bytes) := items[i];
      assert AudioEntries(folder, items[..i + 1]) == AudioEntries(folder, items[..i]) + [Entry(folder + "/Audio/" + name, bytes)];
      out := out + [Entry(folder + "/Audio/" + name, bytes)];
      i := i + 1;
    }
    assert items[..i] == items;
  }

  /** The members of one row, written the way the loop body does. */
  method ProcessRow(row: Row, tools: Tools) returns (r: Result<seq<Entry>>)
    ensures r == RowEntries(row, tools)
  {
    var folder := FolderName(row);
    var context := ContextText(row);
    var title := OutlineTitle(row);
    var outline := tools.outline(context, title, ClassType);
    var outlineEntry := Entry(folder + "/class_outline.md", Utf8.Encode(tools.outlineMarkdown(outline)));
    var script := tools.script(context, title, ClassType);
    var scriptEntry := Entry(folder + "/video_script.md", Utf8.Encode(tools.scriptMarkdown(script)));
    var audio := tools.audio(script);
    if audio.Err? {
      return Err(audio.error);
    }
    var written := WriteAudio([outlineEntry, scriptEntry], folder, audio.value);
    r := Ok(written);
  }

  /** `process` does to every row what the loop body does with `tools`. */
  ghost predicate Implements(process: RowProcessor, tools: Tools)
  {
    forall row {:trigger RowEntries(row, tools)} :: process(row) == RowEntries(row, tools)
  }

  /** The loop body for row `i`: the progress call, then the row's members. */
  method RunRow(rows: seq<Row>, i: nat, before: Run, reporting: bool, tools: Tools, ghost process: RowProcessor)
    returns (after: Run)
    requires Implements(process, tools)
    requires i < |rows| && before.failure.None? && Partial(rows, i, reporting, process) == before
    ensures after == Partial(rows, i + 1, reporting, process)
  {
    var row := rows[i];
    var calls := before.calls;
    if reporting {
      if "#" !in row {
        return Run(before.entries, calls, Some("KeyError: '#'"));
      }
      if "brief_description" !in row {
        return Run(before.entries, calls, Some("KeyError: 'brief_description'"));
      }
      calls := calls + [Progress(i, |rows|, "Processing Class " + row["#"] + ": " + Take(row["brief_description"], 30) + "...")];
    }
    var written := ProcessRow(row, tools);
    if written.Err? {
      return Run(before.entries, calls, Some(written.error));
    }
    after := Run(before.entries + written.value, calls, None);
  }

  /** Once every row is done or an exception has escaped, the run decides the outcome. */
  lemma RunEnds(rows: seq<Row>, i: nat, reporting: bool, process: RowProcessor)
    requires i <= |rows|
    requires i == |rows| || Partial(rows, i, reporting, process).failure.Some?
    ensures Partial(rows, |rows|, reporting, process) == Partial(rows, i, reporting, process)
  {
    if i < |rows| {
      FailureSticks(rows, i, |rows|, reporting, process);
    }
  }

  /**
   * `BatchProcessor().process_batch(rows, progress_callback)`: `reporting` says whether a
   * callback is given; the calls it receives are returned beside the outcome. The source's
   * own run is the one with `process == Processor(tools)`.
   */
  method ProcessBatch(rows: seq<Row>, reporting: bool, tools: Tools, ghost process: RowProcessor)
    returns (outcome: Result<seq<Entry>>, calls: seq<Progress>)
    requires Implements(process, tools)
    ensures outcome == BatchOutcome(rows, reporting, process).0
    ensures calls == BatchOutcome(rows, reporting, process).1
  {
    var run := Run([], [], None);
    var i := 0;
    while i < |rows| && run.failure.None?
      invariant i <= |rows| && run == Partial(rows, i, reporting, process)
    {
      run := RunRow(rows, i, run, reporting, tools, process);
      i := i + 1;
    }
    RunEnds(rows, i, reporting, process);
    if run.failure.Some? {
      outcome, calls := Err(run.failure.value), run.calls;
    } else {
      outcome := Ok(run.entries);
      calls := run.calls + if reporting then [FinalProgress] else [];
    }
  }

  /** The processor built from the tools is the one the loop body implements. */
  lemma ProcessorImplements(tools: Tools)
    ensures Implements(Processor(tools), tools)
  {
  }

  // ---------------------------------------------------------------------
  // What a batch produces
  // ---------------------------------------------------------------------

  /** The folder name starts with `Class_<number>_`; the rest is a slug of at most 30 characters. */
  lemma FolderLayout(row: Row)
    ensures var head := "Class_" + ClassNumber(row) + "_";
      StartsWith(FolderName(row), head) && |FolderName(row)| <= |head| + 30
      && IsSlug(FolderName(row)[|head|..])
    ensures "#" !in row ==> ClassNumber(row) == "000"
  {
    NameLayout(ClassNumber(row), Description(row));
    if "#" !in row {
      DefaultNumber();
    }
  }

  /** The folder name for any class number and description. */
  lemma NameLayout(number: string, description: string)
    ensures var head := "Class_" + number + "_";
      var name := head + Take(Slugify(description), 30);
      StartsWith(name, head) && |name| <= |head| + 30 && IsSlug(name[|head|..])
  {
    var head := "Class_" + number + "_";
    var slug := Take(Slugify(description), 30);
    SlugifyMakesSlug(description);
    SlugPrefix(Slugify(description), 30);
    StartsWithConcat(head, slug);
    assert (head + slug)[|head|..] == slug;
  }

  /** The default class number is left as it is by the strip. */
  lemma DefaultNumber()
    ensures Strip("000") == "000"
  {
    assert IsSlug("000");
    SlugUnstripped("000");
  }

  /** A prefix of a slug is a slug. */
  lemma SlugPrefix(s: string, n: nat)
    requires IsSlug(s)
    ensures IsSlug(Take(s, n))
  {
    var t := Take(s, n);
    assert forall i :: 0 <= i < |t| ==> t[i] == s[i];
  }

  /** A folder holds the outline and the script as UTF-8 text, then one member per narration item in order. */
  lemma LayoutShape(folder: string, outlineMarkdown: string, scriptMarkdown: string, items: seq<(string, seq<byte>)>)
    ensures var es := Layout(folder, outlineMarkdown, scriptMarkdown, items);
      |es| == |items| + 2
      && es[0].path == folder + "/class_outline.md"
      && Utf8.Decode(es[0].content) == Utf8.CodePoints(outlineMarkdown)
      && es[1].path == folder + "/video_script.md"
      && Utf8.Decode(es[1].content) == Utf8.CodePoints(scriptMarkdown)
      && es[2..] == AudioEntries(folder, items)
  {
    Utf8.RoundTrip(outlineMarkdown);
    Utf8.RoundTrip(scriptMarkdown);
  }

  /** Every member path of a folder lies inside it. */
  lemma LayoutInside(folder: string, outlineMarkdown: string, scriptMarkdown: string, items: seq<(string, seq<byte>)>)
    ensures forall e :: e in Layout(folder, outlineMarkdown, scriptMarkdown, items) ==> StartsWith(e.path, folder + "/")
  {
    var es := Layout(folder, outlineMarkdown, scriptMarkdown, items);
    var top := folder + "/";
    StartsWithConcat(top, "class_outline.md");
    StartsWithConcat(top, "video_script.md");
    forall k | 0 <= k < |items|
      ensures StartsWith(AudioEntries(folder, items)[k].path, top)
    {
      StartsWithConcat(top, "Audio/" + items[k].0);
      assert folder + "/Audio/" + items[k].0 == top + ("Audio/" + items[k].0);
    }
    assert forall e :: e in es ==> e == es[0] || e == es[1] || e in AudioEntries(folder, items);
  }

  /** What a row writes, for any folder: the synthesis error, or the layout of the folder. */
  lemma WrittenLayout(folder: string, outlineMarkdown: string, scriptMarkdown: string,
                      audio: Result<seq<(string, seq<byte>)>>, written: Result<seq<Entry>>)
    requires written == match audio
      case Err(e) => Err(e)
      case Ok(items) => Ok(Layout(folder, outlineMarkdown, scriptMarkdown, items))
    ensures written.Err? <==> audio.Err?
    ensures audio.Err? ==> written.error == audio.error
    ensures audio.Ok? ==>
      |written.value| == |audio.value| + 2 && forall e :: e in written.value ==> StartsWith(e.path, folder + "/")
  {
    if audio.Ok? {
      LayoutInside(folder, outlineMarkdown, scriptMarkdown, audio.value);
    }
  }

  /** A row fails exactly when the synthesis does, with its exception; otherwise its folder gets the layout. */
  lemma RowLayout(row: Row, tools: Tools)
    ensures var script := tools.script(ContextText(row), OutlineTitle(row), ClassType);
      RowEntries(row, tools).Err? <==> tools.audio(script).Err?
    ensures var script := tools.script(ContextText(row), OutlineTitle(row), ClassType);
      tools.audio(script).Err? ==> RowEntries(row, tools).error == tools.audio(script).error
    ensures var script := tools.script(ContextText(row), OutlineTitle(row), ClassType);
      tools.audio(script).Ok? ==>
        |RowEntries(row, tools).value| == |tools.audio(script).value| + 2
        && forall e :: e in RowEntries(row, tools).value ==> StartsWith(e.path, FolderName(row) + "/")
  {
    var outline := tools.outline(ContextText(row), OutlineTitle(row), ClassType);
    var script := tools.script(ContextText(row), OutlineTitle(row), ClassType);
    WrittenLayout(FolderName(row), tools.outlineMarkdown(outline), tools.scriptMarkdown(script),
                  tools.audio(script), RowEntries(row, tools));
  }

  /** The exception row `row` raises in a batch, if any: first the progress message, then the row itself. */
  function RowFailure(row: Row, reporting: bool, process: RowProcessor): Option<string>
  {
    var message := ProgressMessage(row);
    if reporting && message.Err? then Some(message.error)
    else match process(row)
      case Err(e) => Some(e)
      case Ok(_) => None
  }

  /** The members a row contributes when it succeeds. */
  function Members(written: Result<seq<Entry>>): seq<Entry>
  {
    match written
    case Ok(es) => es
    case Err(_) => []
  }

  /**
   * The progress calls so far: one per row started, numbered from 0 out of the number of
   * rows, with that row's message; none without a callback.
   */
  lemma {:induction false} RunCalls(rows: seq<Row>, n: nat, reporting: bool, process: RowProcessor)
    requires n <= |rows|
    ensures var run := Partial(rows, n, reporting, process);
      |run.calls| <= n
      && (!reporting ==> run.calls == [])
      && (reporting && run.failure.None? ==> |run.calls| == n)
      && forall j :: 0 <= j < |run.calls| ==>
           ProgressMessage(rows[j]).Ok? && run.calls[j] == Progress(j, |rows|, ProgressMessage(rows[j]).value)
  {
    if n > 0 {
      RunCalls(rows, n - 1, reporting, process);
    }
  }

  /** The run goes on exactly while no row has failed, and it holds every row's members in order. */
  lemma {:induction false} RunEntries(rows: seq<Row>, n: nat, reporting: bool, process: RowProcessor)
    requires n <= |rows|
    ensures Partial(rows, n, reporting, process).failure.None?
      <==> forall k :: 0 <= k < n ==> RowFailure(rows[k], reporting, process).None?
    ensures Partial(rows, n, reporting, process).failure.None? ==>
      Partial(rows, n, reporting, process).entries == FlatMap(rows[..n], row => Members(process(row)))
  {
    if n > 0 {
      RunEntries(rows, n - 1, reporting, process);
      FlatMapSnoc(rows, n - 1, row => Members(process(row)));
    }
  }

  /** A run that stopped was stopped by the first failing row, with that row's exception. */
  lemma {:induction false} RunFailure(rows: seq<Row>, n: nat, reporting: bool, process: RowProcessor)
    requires n <= |rows|
    ensures Partial(rows, n, reporting, process).failure.Some? ==>
      exists k :: 0 <= k < n && RowFailure(rows[k], reporting, process) == Partial(rows, n, reporting, process).failure
        && forall j :: 0 <= j < k ==> RowFailure(rows[j], reporting, process).None?
  {
    if n > 0 {
      RunFailure(rows, n - 1, reporting, process);
      if Partial(rows, n - 1, reporting, process).failure.None? {
        RunEntries(rows, n - 1, reporting, process);
      }
    }
  }

  /**
   * The ZIP is made exactly when no row raises; it holds the rows' members in row order;
   * otherwise the first failing row's exception escapes.
   */
  lemma BatchMembers(rows: seq<Row>, reporting: bool, process: RowProcessor)
    ensures BatchOutcome(rows, reporting, process).0.Ok?
      <==> forall k :: 0 <= k < |rows| ==> RowFailure(rows[k], reporting, process).None?
    ensures BatchOutcome(rows, reporting, process).0.Ok? ==>
      BatchOutcome(rows, reporting, process).0.value == FlatMap(rows, row => Members(process(row)))
    ensures BatchOutcome(rows, reporting, process).0.Err? ==>
      exists k :: 0 <= k < |rows| && RowFailure(rows[k], reporting, process) == Some(BatchOutcome(rows, reporting, process).0.error)
        && forall j :: 0 <= j < k ==> RowFailure(rows[j], reporting, process).None?
  {
    RunEntries(rows, |rows|, reporting, process);
    RunFailure(rows, |rows|, reporting, process);
    assert rows[..|rows|] == rows;
  }

  /**
   * The callback hears of every row, then `1.0` once the ZIP is made; when an exception
   * escapes every call reported is short of the whole. Without a callback nothing is reported.
   */
  lemma BatchProgress(rows: seq<Row>, reporting: bool, process: RowProcessor)
    ensures !reporting ==> BatchOutcome(rows, reporting, process).1 == []
    ensures var (outcome, calls) := BatchOutcome(rows, reporting, process);
      reporting && outcome.Ok? ==>
        |calls| == |rows| + 1 && calls[|rows|] == FinalProgress
        && forall j :: 0 <= j < |rows| ==>
             ProgressMessage(rows[j]).Ok? && calls[j] == Progress(j, |rows|, ProgressMessage(rows[j]).value)
    ensures var (outcome, calls) := BatchOutcome(rows, reporting, process);
      outcome.Err? ==> forall j :: 0 <= j < |calls| ==> calls[j].done < calls[j].total
    ensures rows == [] ==> BatchOutcome(rows, reporting, process) == (Ok([]), if reporting then [FinalProgress] else [])
  {
    RunCalls(rows, |rows|, reporting, process);
    if rows == [] {
      assert [] + [FinalProgress] == [FinalProgress];
    }
  }
}
