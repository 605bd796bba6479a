/**
 * generator/audio_processing.py: a newline-joined transcript of the uploads that were
 * transcribed, and one `segment_NN_title.mp3` payload per segment whose speech call
 * succeeded. The speech-to-text and text-to-speech calls are oracles.
 */
module AudioProcessing {
  import opened Bytes
  import opened Wrappers
  import opened PyText
  import opened Json
  import opened Uploads
  import opened GeneratorModels
  import opened Numbering

  /**
   * One transcription call: `response.text` (an absent text read as `""`), or the text
   * of the `OpenAIError` or `OSError` it raised.
   */
  type Stt = UploadedFile -> Result<string>

  /** One speech call on `segment.narration or segment.title`: the audio bytes, or the `OpenAIError` text. */
  type Tts = Json -> Result<seq<byte>>

  type Payloads = map<string, seq<byte>>

  /** The transcripts kept, in upload order: failed calls and empty texts are dropped. */
  function Transcripts(files: seq<UploadedFile>, stt: Stt): seq<string>
  {
    if files == [] then []
    else
      var outcome := stt(files[|files| - 1]);
      Transcripts(files[..|files| - 1], stt) + (if outcome.Ok? && outcome.value != "" then [outcome.value] else [])
  }

  /**
   * `transcribe_audio_files(audio_files)`. `client` is what `get_client()` gives; a
   * missing key is reported and yields `""`.
   */
  function Transcript(files: seq<UploadedFile>, client: Result<Stt>): string
  {
    if files == [] || client.Err? then "" else Join(Transcripts(files, client.value), "\n")
  }

  method TranscribeAudioFiles(files: seq<UploadedFile>, client: Result<Stt>) returns (text: string)
    ensures text == Transcript(files, client)
  {
    if files == [] {
      return "";
    }
    if client.Err? {
      return "";
    }
    var stt := client.value;
    var transcripts: seq<string> := [];
    var i := 0;
    while i < |files|
      invariant 0 <= i <= |files|
      invariant transcripts == Transcripts(files[..i], stt)
    {
      assert files[..i + 1][..i] == files[..i];
      var outcome := stt(files[i]);
      if outcome.Ok? && outcome.value != "" {
        transcripts := transcripts + [outcome.value];
      }
      i := i + 1;
    }
    assert files[..i] == files;
    text := Join(transcripts, "\n");
  }

  /** Every transcript kept is the non-empty text of a successful call, and none is invented. */
  lemma {:induction false} TranscriptsKept(files: seq<UploadedFile>, stt: Stt)
    ensures |Transcripts(files, stt)| <= |files|
    ensures forall t :: t in Transcripts(files, stt) ==>
      t != "" && exists k :: 0 <= k < |files| && stt(files[k]) == Ok(t)
  {
    if files != [] {
      var init := files[..|files| - 1];
      TranscriptsKept(init, stt);
      forall t | t in Transcripts(files, stt)
        ensures t != "" && exists k :: 0 <= k < |files| && stt(files[k]) == Ok(t)
      {
        if t in Transcripts(init, stt) {
          var k :| 0 <= k < |init| && stt(init[k]) == Ok(t);
          assert files[k] == init[k];
        } else {
          assert stt(files[|files| - 1]) == Ok(t);
        }
      }
    }
  }

  /** A successful call with a non-empty text always contributes its text. */
  lemma {:induction false} TranscriptsAppend(files: seq<UploadedFile>, file: UploadedFile, stt: Stt)
    ensures stt(file).Ok? && stt(file).value != "" ==>
      Transcripts(files + [file], stt) == Transcripts(files, stt) + [stt(file).value]
    ensures !(stt(file).Ok? && stt(file).value != "") ==> Transcripts(files + [file], stt) == Transcripts(files, stt)
  {
    assert (files + [file])[..|files|] == files;
    assert Transcripts(files, stt) + [] == Transcripts(files, stt);
  }

  /** Without a client, or without uploads, the transcript is empty. */
  lemma NoTranscript(files: seq<UploadedFile>, e: string)
    ensures Transcript(files, Err(e)) == ""
    ensures forall client: Result<Stt> :: Transcript([], client) == ""
  {
  }

  /** `segment.title.replace(" ", "_").lower() or f"segment_{idx}"` */
  function SafeTitle(title: string, idx: nat): (r: string)
    ensures r != []
  {
    var t := Lower(ReplaceChar(title, ' ', '_'));
    if t != "" then t else "segment_" + NatDecimal(idx)
  }

  /** `f"segment_{idx:02d}_{safe_title}.mp3"`, as the index and what follows it. */
  function FileName(idx: nat, title: string): string
  {
    "segment_" + Pad2(idx) + NameTail(title, idx)
  }

  /** The part of the file name after the index, which starts with `_`. */
  function NameTail(title: string, idx: nat): (r: string)
    ensures r != [] && r[0] == '_'
  {
    "_" + SafeTitle(title, idx) + ".mp3"
  }

  /** `segment.narration or segment.title` */
  function SpeechInput(segment: VideoSegment): Json
  {
    if Truthy(segment.narration) then segment.narration else segment.title
  }

  /** `segment.title.replace(...)` raises unless every title is a string. */
  predicate TitlesAreStrings(segments: seq<VideoSegment>)
  {
    forall k :: 0 <= k < |segments| ==> segments[k].title.Str?
  }

  /** One file per successful call, under that call's name; a failed call adds nothing. */
  function Assemble(names: seq<string>, outcomes: seq<Result<seq<byte>>>): Payloads
    requires |names| == |outcomes|
    decreases |names|
  {
    if names == [] then map[]
    else
      var n := |names| - 1;
      var prev := Assemble(names[..n], outcomes[..n]);
      if outcomes[n].Ok? then prev[names[n] := outcomes[n].value] else prev
  }

  /** The file name of every segment, positions counted from 1. */
  function Names(segments: seq<VideoSegment>): (r: seq<string>)
    requires TitlesAreStrings(segments)
    ensures |r| == |segments| && forall k :: 0 <= k < |segments| ==> r[k] == FileName(k + 1, segments[k].title.s)
  {
    seq(|segments|, k requires 0 <= k < |segments| => FileName(k + 1, segments[k].title.s))
  }

  /** The outcome of every segment's speech call. */
  function Outcomes(segments: seq<VideoSegment>, tts: Tts): (r: seq<Result<seq<byte>>>)
    ensures |r| == |segments| && forall k :: 0 <= k < |segments| ==> r[k] == tts(SpeechInput(segments[k]))
  {
    seq(|segments|, k requires 0 <= k < |segments| => tts(SpeechInput(segments[k])))
  }

  function PayloadsOf(segments: seq<VideoSegment>, tts: Tts): Payloads
    requires TitlesAreStrings(segments)
  {
    Assemble(Names(segments), Outcomes(segments, tts))
  }

  /**
   * `synthesize_narration_audio(video_script)`: a missing key is reported and yields `{}`;
   * a title that is not a string raises out of the call.
   */
  function Synthesize(script: VideoScript, client: Result<Tts>): Result<Payloads>
  {
    if client.Err? then Ok(map[])
    else if !TitlesAreStrings(script.segments) then Err("AttributeError: object has no attribute 'replace'")
    else Ok(PayloadsOf(script.segments, client.value))
  }

  lemma PayloadsSnoc(segments: seq<VideoSegment>, i: nat, tts: Tts)
    requires i < |segments| && TitlesAreStrings(segments[..i]) && segments[i].title.Str?
    ensures TitlesAreStrings(segments[..i + 1])
    ensures var prev := PayloadsOf(segments[..i], tts);
      var outcome := tts(SpeechInput(segments[i]));
      PayloadsOf(segments[..i + 1], tts)
        == if outcome.Ok? then prev[FileName(i + 1, segments[i].title.s) := outcome.value] else prev
  {
    assert forall k :: 0 <= k < i ==> segments[..i + 1][k] == segments[..i][k];
    NamesSnoc(segments, i);
    OutcomesSnoc(segments, i, tts);
    AssembleSnoc(Names(segments[..i]), Outcomes(segments[..i], tts),
      FileName(i + 1, segments[i].title.s), tts(SpeechInput(segments[i])));
  }

  lemma NamesSnoc(segments: seq<VideoSegment>, i: nat)
    requires i < |segments| && TitlesAreStrings(segments[..i + 1])
    ensures Names(segments[..i + 1]) == Names(segments[..i]) + [FileName(i + 1, segments[i].title.s)]
  {
    assert forall k :: 0 <= k < i ==> segments[..i + 1][k] == segments[..i][k];
    assert segments[..i + 1][i] == segments[i];
  }

  lemma OutcomesSnoc(segments: seq<VideoSegment>, i: nat, tts: Tts)
    requires i < |segments|
    ensures Outcomes(segments[..i + 1], tts) == Outcomes(segments[..i], tts) + [tts(SpeechInput(segments[i]))]
  {
    assert forall k :: 0 <= k < i ==> segments[..i + 1][k] == segments[..i][k];
    assert segments[..i + 1][i] == segments[i];
  }

  lemma AssembleSnoc(names: seq<string>, outcomes: seq<Result<seq<byte>>>, name: string, outcome: Result<seq<byte>>)
    requires |names| == |outcomes|
    ensures Assemble(names + [name], outcomes + [outcome])
      == if outcome.Ok? then Assemble(names, outcomes)[name := outcome.value] else Assemble(names, outcomes)
  {
    assert (names + [name])[..|names|] == names;
    assert (outcomes + [outcome])[..|outcomes|] == outcomes;
  }

  method SynthesizeNarrationAudio(script: VideoScript, client: Result<Tts>) returns (r: Result<Payloads>)
    ensures r == Synthesize(script, client)
  {
    var payloads: Payloads := map[];
    if client.Err? {
      return Ok(payloads);
    }
    var tts := client.value;
    var segments := script.segments;
    var i := 0;
    while i < |segments|
      invariant 0 <= i <= |segments|
      invariant TitlesAreStrings(segments[..i])
      invariant payloads == PayloadsOf(segments[..i], tts)
    {
      var segment := segments[i];
      var idx := i + 1;
      if !segment.title.Str? {
        assert !TitlesAreStrings(segments);
        return Err("AttributeError: object has no attribute 'replace'");
      }
      PayloadsSnoc(segments, i, tts);
      var safeTitle := Lower(ReplaceChar(segment.title.s, ' ', '_'));
      if safeTitle == "" {
        safeTitle := "segment_" + NatDecimal(idx);
      }
      var filename := "segment_" + Pad2(idx) + ("_" + safeTitle + ".mp3");
      var outcome := tts(if Truthy(segment.narration) then segment.narration else segment.title);
      if outcome.Ok? {
        payloads := payloads[filename := outcome.value];
      }
      i := i + 1;
    }
    assert segments[..i] == segments;
    r := Ok(payloads);
  }

  predicate Distinct(names: seq<string>)
  {
    forall i, j :: 0 <= i < j < |names| ==> names[i] != names[j]
  }

  /**
   * With distinct names the assembled map is exact: a successful call's bytes sit under its
   * name, a failed call's name is absent, and there is no other key.
   */
  lemma {:induction false} AssembleKeys(names: seq<string>, outcomes: seq<Result<seq<byte>>>)
    requires |names| == |outcomes| && Distinct(names)
    ensures var m := Assemble(names, outcomes);
      && (forall k :: 0 <= k < |names| && outcomes[k].Ok? ==> names[k] in m && m[names[k]] == outcomes[k].value)
      && (forall k :: 0 <= k < |names| && outcomes[k].Err? ==> names[k] !in m)
      && (forall key :: key in m ==> key in names)
    decreases |names|
  {
    if names != [] {
      var n := |names| - 1;
      AssembleKeys(names[..n], outcomes[..n]);
      assert forall k :: 0 <= k < n ==> names[..n][k] == names[k] && outcomes[..n][k] == outcomes[k];
      assert names[n] !in names[..n];
    }
  }

  /** The digit-only index prefix keeps the file names of different positions apart, whatever the titles. */
  lemma FileNamesDistinct(m: nat, title1: string, n: nat, title2: string)
    requires m != n
    ensures FileName(m, title1) != FileName(n, title2)
  {
    if FileName(m, title1) == FileName(n, title2) {
      PaddedNamesDiffer("segment_", m, NameTail(title1, m), n, NameTail(title2, n));
      assert false;
    }
  }

  /** A safe title has no spaces and no upper-case letters, and an empty title falls back to the position. */
  lemma SafeTitleShape(title: string, idx: nat)
    ensures forall i :: 0 <= i < |SafeTitle(title, idx)| ==>
      SafeTitle(title, idx)[i] != ' ' && !('A' <= SafeTitle(title, idx)[i] <= 'Z')
    ensures title == "" ==> SafeTitle(title, idx) == "segment_" + NatDecimal(idx)
  {
    var t := Lower(ReplaceChar(title, ' ', '_'));
    if t == "" {
      var d := NatDecimal(idx);
      assert forall i :: 0 <= i < |d| ==> IsDigit(d[i]);
      forall i | 0 <= i < |"segment_" + d|
        ensures ("segment_" + d)[i] != ' ' && !('A' <= ("segment_" + d)[i] <= 'Z')
      {
        if i >= 8 {
          assert ("segment_" + d)[i] == d[i - 8];
        }
      }
    }
  }

  /** The speech input is the narration, or the title when the narration is empty. */
  lemma SpeechInputRule(segment: VideoSegment)
    ensures segment.narration.Str? && segment.narration.s != "" ==> SpeechInput(segment) == segment.narration
    ensures segment.narration == Str("") ==> SpeechInput(segment) == segment.title
  {
  }

  /** Different segments get different file names. */
  lemma NamesDistinct(segments: seq<VideoSegment>)
    requires TitlesAreStrings(segments)
    ensures Distinct(Names(segments))
  {
    forall i, j | 0 <= i < j < |segments|
      ensures Names(segments)[i] != Names(segments)[j]
    {
      FileNamesDistinct(i + 1, segments[i].title.s, j + 1, segments[j].title.s);
    }
  }

  /**
   * The payload map, exactly: a successful segment's audio sits under its own file name,
   * a failed segment has none, and every key is some segment's file name.
   */
  lemma PayloadKeys(segments: seq<VideoSegment>, tts: Tts)
    requires TitlesAreStrings(segments)
    ensures var m := PayloadsOf(segments, tts);
      && (forall k :: 0 <= k < |segments| && tts(SpeechInput(segments[k])).Ok? ==>
            FileName(k + 1, segments[k].title.s) in m
            && m[FileName(k + 1, segments[k].title.s)] == tts(SpeechInput(segments[k])).value)
      && (forall k :: 0 <= k < |segments| && tts(SpeechInput(segments[k])).Err? ==>
            FileName(k + 1, segments[k].title.s) !in m)
      && (forall key :: key in m ==> exists k :: 0 <= k < |segments| && key == FileName(k + 1, segments[k].title.s))
  {
    NamesDistinct(segments);
    var names := Names(segments);
    AssembleKeys(names, Outcomes(segments, tts));
    forall key | key in PayloadsOf(segments, tts)
      ensures exists k :: 0 <= k < |segments| && key == FileName(k + 1, segments[k].title.s)
    {
      var k :| 0 <= k < |names| && names[k] == key;
    }
  }

  /** Without a client there is no payload at all. */
  lemma NoClientNoPayloads(script: VideoScript, e: string)
    ensures Synthesize(script, Err(e)) == Ok(map[])
  {
  }
}
