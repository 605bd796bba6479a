/** generator/text_extraction.py: the placeholder extractor that names each upload. */
module TextExtraction {
  import opened Bytes
  import opened PyText
  import opened Uploads

  /** `file.name or "uploaded_file"` */
  function Label(file: UploadedFile): (r: string)
    ensures r != []
    ensures file.name != [] ==> r == file.name
  {
    if file.name != [] then file.name else "uploaded_file"
  }

  function Section(file: UploadedFile): string
  {
    "[Extracted content from " + Label(file) + "]\nSample text for " + Label(file) + "."
  }

  /** One section per file, in upload order. */
  function Sections(files: seq<UploadedFile>): (r: seq<string>)
    ensures |r| == |files| && forall k :: 0 <= k < |files| ==> r[k] == Section(files[k])
  {
    seq(|files|, k requires 0 <= k < |files| => Section(files[k]))
  }

  /** `extract_text_from_files(uploaded_files)` */
  method ExtractTextFromFiles(files: seq<UploadedFile>) returns (text: string)
    ensures text == Join(Sections(files), "\n\n")
  {
    if files == [] {
      return "";
    }
    var sections: seq<string> := [];
    var i := 0;
    while i < |files|
      invariant 0 <= i <= |files|
      invariant sections == Sections(files[..i])
    {
      var fileLabel := if files[i].name != [] then files[i].name else "uploaded_file";
      sections := sections + ["[Extracted content from " + fileLabel + "]\nSample text for " + fileLabel + "."];
      i := i + 1;
    }
    assert files[..i] == files;
    text := Join(sections, "\n\n");
  }

  /** A nameless file is labelled `uploaded_file`. */
  lemma NamelessFile(content: seq<byte>)
    ensures Section(UploadedFile("", content)) == "[Extracted content from uploaded_file]\nSample text for uploaded_file."
  {
    assert Label(UploadedFile("", content)) == "uploaded_file";
    assert "[Extracted content from " + "uploaded_file" == "[Extracted content from uploaded_file";
    assert "[Extracted content from uploaded_file" + "]\nSample text for " == "[Extracted content from uploaded_file]\nSample text for ";
    assert "[Extracted content from uploaded_file]\nSample text for " + "uploaded_file" + "."
      == "[Extracted content from uploaded_file]\nSample text for uploaded_file.";
  }

  /** Sections are separated by one blank line, and a later file only adds to the end. */
  lemma SectionPerFile(files: seq<UploadedFile>, file: UploadedFile)
    requires files != []
    ensures Join(Sections(files + [file]), "\n\n") == Join(Sections(files), "\n\n") + "\n\n" + Section(file)
  {
    assert Sections(files + [file])[..|files|] == Sections(files);
  }
}
