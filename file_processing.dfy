/**
 * generator/file_processing.py: text is pulled out of each upload by a reader chosen
 * from the file's extension, and the non-empty texts are labelled with their source.
 */
module FileProcessing {
  import opened Wrappers
  import opened PyText
  import opened Uploads

  /** `s.rfind(c)`: the index of the last `c`, or -1. */
  function RFind(s: string, c: char): (r: int)
    ensures -1 <= r < |s|
    ensures r >= 0 ==> s[r] == c
    ensures forall k :: r < k < |s| ==> s[k] != c
  {
    if s == [] then -1
    else if s[|s| - 1] == c then |s| - 1
    else RFind(s[..|s| - 1], c)
  }

  /** The last `c` in `s` is at `i`. */
  lemma RFindAt(s: string, c: char, i: nat)
    requires i < |s| && s[i] == c
    requires forall k :: i < k < |s| ==> s[k] != c
    ensures RFind(s, c) == i
  {
  }

  /**
   * True when some character strictly between `lo` and `hi` is not a dot: a run of
   * leading dots in a file name does not begin its extension.
   */
  predicate NonDotBetween(p: string, lo: int, hi: int)
    requires -1 <= lo && hi <= |p|
  {
    exists k :: lo < k < hi && p[k] != '.'
  }

  /** POSIX `os.path.splitext(p)`: the root and the extension, which is empty or starts with a dot. */
  function SplitExt(p: string): (r: (string, string))
    ensures r.0 + r.1 == p
  {
    var sep := RFind(p, '/');
    var dot := RFind(p, '.');
    if dot > sep && NonDotBetween(p, sep, dot) then (p[..dot], p[dot..]) else (p, "")
  }

  /** `os.path.splitext(name)[1].lower()` */
  function Ext(name: string): string
  {
    Lower(SplitExt(name).1)
  }

  /** Which reader an extension selects. */
  datatype Kind = Pdf | Docx | Txt | Unsupported

  function KindOf(ext: string): Kind
  {
    if ext == ".pdf" then Pdf
    else if ext == ".docx" || ext == ".doc" then Docx
    else if ext == ".txt" then Txt
    else Unsupported
  }

  /**
   * The three readers of the source, as oracles. Each returns `""` when the
   * document cannot be read, as `_extract_pdf`, `_extract_docx` and `_extract_txt` do.
   */
  datatype Readers = Readers(pdf: UploadedFile -> string, docx: UploadedFile -> string, txt: UploadedFile -> string)

  function Read(file: UploadedFile, readers: Readers): string
  {
    match KindOf(Ext(file.name))
    case Pdf => readers.pdf(file)
    case Docx => readers.docx(file)
    case Txt => readers.txt(file)
    case Unsupported => ""
  }

  function Section(file: UploadedFile, text: string): string
  {
    "[Source: " + file.name + "]\n" + text
  }

  /** The labelled sections, in upload order; a missing upload or an empty text adds none. */
  function Sections(files: seq<Option<UploadedFile>>, readers: Readers): seq<string>
  {
    if files == [] then []
    else
      var last := files[|files| - 1];
      Sections(files[..|files| - 1], readers)
        + (if last.Some? && Read(last.value, readers) != "" then [Section(last.value, Read(last.value, readers))] else [])
  }

  /** `extract_text_from_files(uploaded_files)` */
  method ExtractTextFromFiles(files: seq<Option<UploadedFile>>, readers: Readers) returns (text: string)
    ensures text == Join(Sections(files, readers), "\n\n")
  {
    if files == [] {
      return "";
    }
    var sections: seq<string> := [];
    var i := 0;
    while i < |files|
      invariant 0 <= i <= |files|
      invariant sections == Sections(files[..i], readers)
    {
      assert files[..i + 1][..i] == files[..i];
      var entry := files[i];
      if entry.Some? {
        var file := entry.value;
        var ext := Lower(SplitExt(file.name).1);
        var content: string;
        if ext == ".pdf" {
          content := readers.pdf(file);
        } else if ext == ".docx" || ext == ".doc" {
          content := readers.docx(file);
        } else if ext == ".txt" {
          content := readers.txt(file);
        } else {
          content := "";
        }
        if content != "" {
          sections := sections + ["[Source: " + file.name + "]\n" + content];
        }
      }
      i := i + 1;
    }
    assert files[..i] == files;
    text := Join(sections, "\n\n");
  }

  /** The extension is empty, or one dot followed by no further dot and no `/`. */
  lemma ExtShape(p: string)
    ensures var ext := SplitExt(p).1;
      ext == [] || (ext[0] == '.' && forall k :: 0 < k < |ext| ==> ext[k] != '.' && ext[k] != '/')
  {
  }

  /** A non-empty extension follows a final path component that holds a character other than a dot. */
  lemma ExtNeedsStem(p: string)
    requires SplitExt(p).1 != []
    ensures var root := SplitExt(p).0;
      exists k :: RFind(p, '/') < k < |root| && root[k] != '.'
  {
    var sep := RFind(p, '/');
    var dot := RFind(p, '.');
    var k :| sep < k < dot && p[k] != '.';
    assert SplitExt(p).0[k] == p[k];
  }

  /** A hidden file has no extension: `splitext(".txt") == (".txt", "")`, and neither has `"..txt"`. */
  lemma LeadingDotsAreNoExtension()
    ensures SplitExt(".txt") == (".txt", "")
    ensures SplitExt("..txt") == ("..txt", "")
    ensures KindOf(Ext(".txt")) == Unsupported
  {
    assert RFind(".txt", '/') == -1;
    RFindAt(".txt", '.', 0);
    assert RFind("..txt", '/') == -1;
    RFindAt("..txt", '.', 1);
    assert !NonDotBetween("..txt", -1, 1) by {
      forall k | -1 < k < 1 ensures "..txt"[k] == '.' { }
    }
  }

  /** Only the last dot counts, the case of the extension does not, and a dot in a directory name is ignored. */
  lemma ExtExamples()
    ensures SplitExt("a.tar.gz") == ("a.tar", ".gz")
    ensures Ext("Notes.PDF") == ".pdf"
    ensures SplitExt("v1.2/readme") == ("v1.2/readme", "")
  {
    assert RFind("a.tar.gz", '/') == -1;
    RFindAt("a.tar.gz", '.', 5);
    assert "a.tar.gz"[0] != '.';
    assert "a.tar.gz"[..5] == "a.tar";
    assert "a.tar.gz"[5..] == ".gz";
    assert RFind("Notes.PDF", '/') == -1;
    RFindAt("Notes.PDF", '.', 5);
    assert "Notes.PDF"[0] != '.';
    assert "Notes.PDF"[5..] == ".PDF";
    assert Lower(".PDF") == ".pdf";
    RFindAt("v1.2/readme", '/', 4);
    RFindAt("v1.2/readme", '.', 2);
  }

  /** Each extension reaches the reader the source names for it, and only those three kinds are read. */
  lemma Dispatch(file: UploadedFile, readers: Readers)
    ensures Ext(file.name) == ".pdf" ==> Read(file, readers) == readers.pdf(file)
    ensures Ext(file.name) in {".docx", ".doc"} ==> Read(file, readers) == readers.docx(file)
    ensures Ext(file.name) == ".txt" ==> Read(file, readers) == readers.txt(file)
    ensures Ext(file.name) !in {".pdf", ".docx", ".doc", ".txt"} ==> Read(file, readers) == ""
  {
  }

  /** Uploads handled one after another: the sections of a concatenation are the concatenation of the sections. */
  lemma {:induction false} SectionsAppend(xs: seq<Option<UploadedFile>>, ys: seq<Option<UploadedFile>>, readers: Readers)
    ensures Sections(xs + ys, readers) == Sections(xs, readers) + Sections(ys, readers)
    decreases |ys|
  {
    if ys == [] {
      assert xs + ys == xs;
    } else {
      var init := ys[..|ys| - 1];
      assert (xs + ys)[..|xs + ys| - 1] == xs + init;
      SectionsAppend(xs, init, readers);
    }
  }

  /** A missing upload, an unsupported type and an unreadable document contribute nothing. */
  lemma SkippedUploads(file: UploadedFile, readers: Readers)
    ensures Sections([None], readers) == []
    ensures KindOf(Ext(file.name)) == Unsupported ==> Sections([Some(file)], readers) == []
    ensures Read(file, readers) == "" ==> Sections([Some(file)], readers) == []
    ensures Read(file, readers) != "" ==> Sections([Some(file)], readers) == [Section(file, Read(file, readers))]
  {
    var missing: seq<Option<UploadedFile>> := [None];
    assert missing[..0] == [];
    assert [Some(file)][..0] == [];
  }

  /** `s` is the section of the `k`-th upload. */
  predicate SectionAt(files: seq<Option<UploadedFile>>, readers: Readers, k: int, s: string)
  {
    0 <= k < |files| && files[k].Some? && Read(files[k].value, readers) != ""
    && s == Section(files[k].value, Read(files[k].value, readers))
  }

  /** Every section is the labelled, non-empty text of one of the uploads. */
  lemma {:induction false} SectionsLabelled(files: seq<Option<UploadedFile>>, readers: Readers)
    ensures forall s :: s in Sections(files, readers) ==> exists k :: SectionAt(files, readers, k, s)
  {
    if files != [] {
      var init := files[..|files| - 1];
      SectionsLabelled(init, readers);
      forall s | s in Sections(files, readers)
        ensures exists k :: SectionAt(files, readers, k, s)
      {
        if s in Sections(init, readers) {
          var k :| SectionAt(init, readers, k, s);
          assert files[k] == init[k];
          assert SectionAt(files, readers, k, s);
        } else {
          assert SectionAt(files, readers, |files| - 1, s);
        }
      }
    }
  }
}
