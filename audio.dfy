/**
 * generator/audio.py: the transcript of a list of audio uploads, and the narration
 * payloads of a video script, keyed by the 1-based position of each segment.
 * The speech-to-text and text-to-speech calls are oracles.
 */
module Audio {
  import opened Bytes
  import opened Wrappers
  import opened PyText
  import opened Json
  import opened Lines
  import opened Uploads
  import opened GeneratorModels
  import opened Numbering
  import Utf8

  /** One transcription call: `response.text or ""`, or the text of the exception it raised. */
  type Stt = UploadedFile -> Result<string>

  /** One speech call on the narration text: the audio bytes, or the text of the exception. */
  type Tts = string -> Result<seq<byte>>

  type Payloads = map<string, seq<byte>>

  function TranscriptHeader(file: UploadedFile): string
  {
    "--- Transcript from " + file.name + " ---"
  }

  /** The entry of one upload, given the outcome of its transcription call. */
  function TranscriptEntry(file: UploadedFile, outcome: Result<string>): string
  {
    match outcome
    case Ok(text) =>
      TranscriptHeader(file) + "\n" + (if text == "" then "[No speech detected in " + file.name + "]" else text)
    case Err(e) => "[Transcription failed for " + file.name + ": " + e + "]"
  }

  /** One entry per upload, in upload order. */
  function TranscriptEntries(files: seq<UploadedFile>, stt: Stt): (r: seq<string>)
    ensures |r| == |files| && forall k :: 0 <= k < |files| ==> r[k] == TranscriptEntry(files[k], stt(files[k]))
  {
    seq(|files|, k requires 0 <= k < |files| => TranscriptEntry(files[k], stt(files[k])))
  }

  /**
   * `transcribe_audio_files(audio_files)`. `client` is what `get_client()` gives; it is
   * asked for only when there is a file, and its failure propagates.
   */
  function Transcript(files: seq<UploadedFile>, client: Result<Stt>): Result<string>
  {
    if files == [] then Ok("")
    else if client.Err? then Err(client.error)
    else Ok(Strip(Join(TranscriptEntries(files, client.value), "\n\n")))
  }

  method TranscribeAudioFiles(files: seq<UploadedFile>, client: Result<Stt>) returns (r: Result<string>)
    ensures r == Transcript(files, client)
  {
    if files == [] {
      return Ok("");
    }
    if client.Err? {
      return Err(client.error);
    }
    var stt := client.value;
    var entries: seq<string> := [];
    var i := 0;
    while i < |files|
      invariant 0 <= i <= |files|
      invariant entries == TranscriptEntries(files[..i], stt)
    {
      var file := files[i];
      var outcome := stt(file);
      var entry: string;
      if outcome.Ok? {
        var transcript := outcome.value;
        if transcript == "" {
          transcript := "[No speech detected in " + file.name + "]";
        }
        entry := "--- Transcript from " + file.name + " ---\n" + transcript;
      } else {
        entry := "[Transcription failed for " + file.name + ": " + outcome.error + "]";
      }
      assert entry == TranscriptEntry(file, outcome);
      assert files[..i + 1][..i] == files[..i];
      assert TranscriptEntries(files[..i + 1], stt) == entries + [entry];
      entries := entries + [entry];
      i := i + 1;
    }
    assert files[..i] == files;
    r := Ok(Strip(Join(entries, "\n\n")));
  }

  /** A transcribed upload is introduced by its header, and an empty transcript is replaced by a notice. */
  lemma EntryShape(file: UploadedFile, outcome: Result<string>)
    ensures outcome.Ok? ==> StartsWith(TranscriptEntry(file, outcome), TranscriptHeader(file) + "\n")
    ensures outcome == Ok("") ==>
      TranscriptEntry(file, outcome) == TranscriptHeader(file) + "\n[No speech detected in " + file.name + "]"
    ensures outcome.Ok? && outcome.value != "" ==>
      TranscriptEntry(file, outcome) == TranscriptHeader(file) + "\n" + outcome.value
    ensures outcome.Err? ==> TranscriptEntry(file, outcome) == "[Transcription failed for " + file.name + ": " + outcome.error + "]"
  {
    if outcome.Ok? {
      var text := if outcome.value == "" then "[No speech detected in " + file.name + "]" else outcome.value;
      StartsWithConcat(TranscriptHeader(file) + "\n", text);
      if outcome.value == "" {
        assert TranscriptHeader(file) + "\n" + text == TranscriptHeader(file) + "\n[No speech detected in " + file.name + "]";
      }
    }
  }

  /** The combined transcript opens with the first upload's header, or with its whole failure notice. */
  lemma FirstEntryLeads(files: seq<UploadedFile>, stt: Stt)
    requires files != []
    ensures Transcript(files, Ok(stt)).Ok?
    ensures stt(files[0]).Ok? ==> StartsWith(Transcript(files, Ok(stt)).value, TranscriptHeader(files[0]))
    ensures stt(files[0]).Err? ==> StartsWith(Transcript(files, Ok(stt)).value, TranscriptEntry(files[0], stt(files[0])))
  {
    var entries := TranscriptEntries(files, stt);
    var joined := Join(entries, "\n\n");
    JoinStartsWithFirst(entries, "\n\n");
    var first := entries[0];
    if stt(files[0]).Ok? {
      var header := TranscriptHeader(files[0]);
      EntryShape(files[0], stt(files[0]));
      assert joined[..|header|] == first[..|header|] == header;
      StripKeepsPrefix(joined, header);
    } else {
      assert first[0] == '[' && first[|first| - 1] == ']';
      StripKeepsPrefix(joined, first);
    }
  }

  /** With no uploads nothing is transcribed, and no client is needed. */
  lemma NoFilesNoClient(client: Result<Stt>)
    ensures Transcript([], client) == Ok("")
  {
  }

  function WavKey(idx: nat): string
  {
    "segment_" + NatDecimal(idx) + ".wav"
  }

  function ErrorKey(idx: nat): string
  {
    "segment_" + NatDecimal(idx) + "_ERROR.txt"
  }

  function ErrorText(idx: nat, e: string): string
  {
    "Error generating TTS for segment " + NatDecimal(idx) + ": " + e
  }

  /** `segment.narration.strip()` raises unless every narration is a string. */
  predicate NarrationsAreStrings(segments: seq<VideoSegment>)
  {
    forall k :: 0 <= k < |segments| ==> segments[k].narration.Str?
  }

  /** The stripped narration of every segment, in order. */
  function Texts(segments: seq<VideoSegment>): (r: seq<string>)
    requires NarrationsAreStrings(segments)
    ensures |r| == |segments| && forall k :: 0 <= k < |segments| ==> r[k] == Strip(segments[k].narration.s)
  {
    seq(|segments|, k requires 0 <= k < |segments| => Strip(segments[k].narration.s))
  }

  /** The entry the segment at position `idx` adds, given its stripped narration. */
  function SegmentEntry(idx: nat, text: string, tts: Tts): Option<(string, seq<byte>)>
  {
    if text == "" then None
    else match tts(text)
      case Ok(audio) => Some((WavKey(idx), audio))
      case Err(e) => Some((ErrorKey(idx), Utf8.Encode(ErrorText(idx, e))))
  }

  /** The payloads of the stripped narrations, positions counted from 1. */
  function PayloadsOf(texts: seq<string>, tts: Tts): Payloads
    decreases |texts|
  {
    if texts == [] then map[]
    else
      var prev := PayloadsOf(texts[..|texts| - 1], tts);
      match SegmentEntry(|texts|, texts[|texts| - 1], tts)
      case None => prev
      case Some(entry) => prev[entry.0 := entry.1]
  }

  /** The same payloads as `(key, bytes)` pairs in insertion order, which is the order `dict.items()` yields. */
  function PayloadItems(texts: seq<string>, tts: Tts): seq<(string, seq<byte>)>
    decreases |texts|
  {
    if texts == [] then []
    else
      var prev := PayloadItems(texts[..|texts| - 1], tts);
      match SegmentEntry(|texts|, texts[|texts| - 1], tts)
      case None => prev
      case Some(entry) => prev + [entry]
  }

  /** The dictionary built by inserting `items` in order, a later key overriding an earlier one. */
  function MapOf(items: seq<(string, seq<byte>)>): Payloads
  {
    if items == [] then map[]
    else MapOf(items[..|items| - 1])[items[|items| - 1].0 := items[|items| - 1].1]
  }

  /** Iterating the items rebuilds exactly the payload dictionary. */
  lemma {:induction false} ItemsRebuildPayloads(texts: seq<string>, tts: Tts)
    ensures MapOf(PayloadItems(texts, tts)) == PayloadsOf(texts, tts)
    decreases |texts|
  {
    if texts != [] {
      var init := texts[..|texts| - 1];
      ItemsRebuildPayloads(init, tts);
      var prev := PayloadItems(init, tts);
      match SegmentEntry(|texts|, texts[|texts| - 1], tts)
      case None =>
      case Some(entry) =>
        assert (prev + [entry])[..|prev|] == prev;
    }
  }

  /**
   * `synthesize_narration_audio(video_script)`. A failing `get_client()` and a narration
   * that is not a string raise out of the call; the speech calls have no other effect,
   * so the payloads built before such a narration are simply lost.
   */
  function Synthesize(script: VideoScript, client: Result<Tts>): Result<Payloads>
  {
    if client.Err? then Err(client.error)
    else if !NarrationsAreStrings(script.segments) then Err("AttributeError: object has no attribute 'strip'")
    else Ok(PayloadsOf(Texts(script.segments), client.value))
  }

  /** `synthesize_narration_audio(video_script).items()`: the outcome above, its dictionary as a list. */
  function SynthesizedItems(script: VideoScript, client: Result<Tts>): Result<seq<(string, seq<byte>)>>
  {
    if client.Err? then Err(client.error)
    else if !NarrationsAreStrings(script.segments) then Err("AttributeError: object has no attribute 'strip'")
    else Ok(PayloadItems(Texts(script.segments), client.value))
  }

  /** The listed items are those of the dictionary the call returns, and the call fails exactly when it does. */
  lemma ItemsOfSynthesis(script: VideoScript, client: Result<Tts>)
    ensures SynthesizedItems(script, client).Err? <==> Synthesize(script, client).Err?
    ensures SynthesizedItems(script, client).Err? ==> SynthesizedItems(script, client).error == Synthesize(script, client).error
    ensures SynthesizedItems(script, client).Ok? ==> MapOf(SynthesizedItems(script, client).value) == Synthesize(script, client).value
  {
    if SynthesizedItems(script, client).Ok? {
      ItemsRebuildPayloads(Texts(script.segments), client.value);
    }
  }

  lemma TextsAppend(shorter: seq<VideoSegment>, x: VideoSegment)
    requires NarrationsAreStrings(shorter) && x.narration.Str?
    ensures NarrationsAreStrings(shorter + [x])
    ensures Texts(shorter + [x]) == Texts(shorter) + [Strip(x.narration.s)]
  {
    var longer := shorter + [x];
    assert NarrationsAreStrings(longer) by {
      forall k | 0 <= k < |longer| ensures longer[k].narration.Str? {
        if k < |shorter| { assert longer[k] == shorter[k]; }
      }
    }
    var a, b := Texts(longer), Texts(shorter) + [Strip(x.narration.s)];
    forall k | 0 <= k < |a| ensures a[k] == b[k] {
      if k < |shorter| { assert longer[k] == shorter[k]; }
    }
  }

  lemma TextsSnoc(segments: seq<VideoSegment>, i: nat)
    requires i < |segments| && NarrationsAreStrings(segments[..i]) && segments[i].narration.Str?
    ensures NarrationsAreStrings(segments[..i + 1])
    ensures Texts(segments[..i + 1]) == Texts(segments[..i]) + [Strip(segments[i].narration.s)]
  {
    assert segments[..i + 1] == segments[..i] + [segments[i]];
    TextsAppend(segments[..i], segments[i]);
  }

  lemma PayloadsSnoc(texts: seq<string>, text: string, tts: Tts)
    ensures var prev := PayloadsOf(texts, tts);
      PayloadsOf(texts + [text], tts) ==
        match SegmentEntry(|texts| + 1, text, tts)
        case None => prev
        case Some(entry) => prev[entry.0 := entry.1]
  {
    assert (texts + [text])[..|texts|] == texts;
  }

  /** The body of the loop over segments, once the narration is stripped. */
  method AddNarration(payloads: Payloads, idx: nat, narrationText: string, tts: Tts) returns (m: Payloads)
    ensures m == match SegmentEntry(idx, narrationText, tts)
      case None => payloads
      case Some(entry) => payloads[entry.0 := entry.1]
  {
    m := payloads;
    if narrationText != "" {
      var outcome := tts(narrationText);
      if outcome.Ok? {
        m := m[WavKey(idx) := outcome.value];
      } else {
        var errorAudio := Utf8.Encode(ErrorText(idx, outcome.error));
        m := m[ErrorKey(idx) := errorAudio];
      }
    }
  }

  method SynthesizeNarrationAudio(script: VideoScript, client: Result<Tts>) returns (r: Result<Payloads>)
    ensures r == Synthesize(script, client)
  {
    if client.Err? {
      return Err(client.error);
    }
    var tts := client.value;
    var segments := script.segments;
    var payloads: Payloads := map[];
    var i := 0;
    while i < |segments|
      invariant 0 <= i <= |segments|
      invariant NarrationsAreStrings(segments[..i])
      invariant payloads == PayloadsOf(Texts(segments[..i]), tts)
    {
      var segment := segments[i];
      var idx := i + 1;
      if !segment.narration.Str? {
        assert !NarrationsAreStrings(segments);
        return Err("AttributeError: object has no attribute 'strip'");
      }
      var narrationText := Strip(segment.narration.s);
      TextsSnoc(segments, i);
      PayloadsSnoc(Texts(segments[..i]), narrationText, tts);
      payloads := AddNarration(payloads, idx, narrationText, tts);
      i := i + 1;
    }
    assert segments[..i] == segments;
    r := Ok(payloads);
  }

  /** Keys of different positions never collide, and a success key is never a failure key. */
  lemma KeysDistinct(m: nat, n: nat)
    ensures WavKey(m) != ErrorKey(n)
    ensures m != n ==> WavKey(m) != WavKey(n) && ErrorKey(m) != ErrorKey(n)
  {
    if WavKey(m) == ErrorKey(n) {
      NumberedNamesDiffer("segment_", m, ".wav", n, "_ERROR.txt");
      assert false;
    }
    if m != n && WavKey(m) == WavKey(n) {
      NumberedNamesDiffer("segment_", m, ".wav", n, ".wav");
    }
    if m != n && ErrorKey(m) == ErrorKey(n) {
      NumberedNamesDiffer("segment_", m, "_ERROR.txt", n, "_ERROR.txt");
    }
  }

  /**
   * What the payloads say about position `idx`: nothing for a narration that strips to
   * empty, else exactly one of the audio under the success key or the UTF-8 error text
   * under the failure key.
   */
  predicate Recorded(m: Payloads, idx: nat, text: string, tts: Tts)
  {
    && (text == "" ==> WavKey(idx) !in m && ErrorKey(idx) !in m)
    && (text != "" && tts(text).Ok? ==>
          WavKey(idx) in m && m[WavKey(idx)] == tts(text).value && ErrorKey(idx) !in m)
    && (text != "" && tts(text).Err? ==>
          ErrorKey(idx) in m && m[ErrorKey(idx)] == Utf8.Encode(ErrorText(idx, tts(text).error)) && WavKey(idx) !in m)
  }

  /** An entry for another position leaves what is recorded about `idx` as it was. */
  lemma RecordedKept(m: Payloads, idx: nat, text: string, tts: Tts, n: nat, key: string, value: seq<byte>)
    requires Recorded(m, idx, text, tts)
    requires n != idx && (key == WavKey(n) || key == ErrorKey(n))
    ensures Recorded(m[key := value], idx, text, tts)
  {
    KeysDistinct(idx, n);
    KeysDistinct(n, idx);
  }

  /** Every key belongs to one of the first `n` positions. */
  predicate KeysWithin(m: Payloads, n: nat)
  {
    forall key :: key in m ==> exists k :: 1 <= k <= n && (key == WavKey(k) || key == ErrorKey(k))
  }

  /**
   * The payload map, exactly: each position records its narration's outcome (so at most one
   * key per segment), and there is no key for any other position.
   */
  lemma {:induction false} PayloadKeys(texts: seq<string>, tts: Tts)
    ensures forall k :: 0 <= k < |texts| ==> Recorded(PayloadsOf(texts, tts), k + 1, texts[k], tts)
    ensures KeysWithin(PayloadsOf(texts, tts), |texts|)
    decreases |texts|
  {
    if texts != [] {
      var n := |texts| - 1;
      var init := texts[..n];
      var prev := PayloadsOf(init, tts);
      PayloadKeys(init, tts);
      var m := PayloadsOf(texts, tts);
      var entry := SegmentEntry(n + 1, texts[n], tts);
      assert m == if entry.None? then prev else prev[entry.value.0 := entry.value.1];
      forall k | 0 <= k < n
        ensures Recorded(m, k + 1, texts[k], tts)
      {
        assert init[k] == texts[k];
        if entry.Some? {
          RecordedKept(prev, k + 1, init[k], tts, n + 1, entry.value.0, entry.value.1);
        }
      }
      FreshPosition(prev, n);
      KeysDistinct(n + 1, n + 1);
      forall key | key in m
        ensures exists k :: 1 <= k <= n + 1 && (key == WavKey(k) || key == ErrorKey(k))
      {
        if key !in prev {
          assert key == WavKey(n + 1) || key == ErrorKey(n + 1);
        }
      }
    }
  }

  /** A map whose keys belong to the first `n` positions has none for position `n + 1`. */
  lemma FreshPosition(m: Payloads, n: nat)
    requires KeysWithin(m, n)
    ensures WavKey(n + 1) !in m && ErrorKey(n + 1) !in m
  {
    forall j | 1 <= j <= n
      ensures WavKey(n + 1) != WavKey(j) && WavKey(n + 1) != ErrorKey(j)
      ensures ErrorKey(n + 1) != WavKey(j) && ErrorKey(n + 1) != ErrorKey(j)
    {
      KeysDistinct(n + 1, j);
      KeysDistinct(j, n + 1);
    }
  }

  /**
   * In terms of the script: the segment at position `k + 1` whose narration strips to empty
   * has no key, and the TTS input of any other is its stripped narration.
   */
  lemma SynthesisKeys(script: VideoScript, tts: Tts, k: nat)
    requires k < |script.segments| && NarrationsAreStrings(script.segments)
    ensures var m := Synthesize(script, Ok(tts)).value;
      Recorded(m, k + 1, Strip(script.segments[k].narration.s), tts) && KeysWithin(m, |script.segments|)
  {
    var texts := Texts(script.segments);
    PayloadKeys(texts, tts);
    assert Synthesize(script, Ok(tts)).value == PayloadsOf(texts, tts);
    assert texts[k] == Strip(script.segments[k].narration.s);
  }
}
