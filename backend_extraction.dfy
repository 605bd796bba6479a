/**
 * backend/services/extraction.py, `extract_text_from_files`: a placeholder
 * that names each saved file.  A `pathlib.Path` is modelled by its
 * components, already normalised, so its `.name` is the last component.
 */
module BackendExtraction {
  import opened PyText

  datatype Path = Path(parts: seq<string>)

  /** `path.name`: the final component, `""` for a path with none. */
  function Name(p: Path): (r: string)
    ensures p.parts != [] ==> r == p.parts[|p.parts| - 1]
    ensures p.parts == [] ==> r == []
  {
    if p.parts == [] then [] else p.parts[|p.parts| - 1]
  }

  function Snippet(p: Path): string
  {
    "[Extracted text from " + Name(p) + "]"
  }

  /** `[f"[Extracted text from {path.name}]" for path in file_paths]` */
  function Snippets(paths: seq<Path>): (r: seq<string>)
    ensures |r| == |paths| && forall k :: 0 <= k < |paths| ==> r[k] == Snippet(paths[k])
  {
    seq(|paths|, k requires 0 <= k < |paths| => Snippet(paths[k]))
  }

  function ExtractTextFromFiles(paths: seq<Path>): string
  {
    Join(Snippets(paths), "\n")
  }

  /** No paths give the empty text; one path gives its snippet alone. */
  lemma FewPaths(p: Path)
    ensures ExtractTextFromFiles([]) == ""
    ensures ExtractTextFromFiles([p]) == "[Extracted text from " + Name(p) + "]"
  {
  }

  /** One more path adds one more line, after the others: one snippet per path, in input order. */
  lemma OneLinePerPath(paths: seq<Path>, p: Path)
    requires paths != []
    ensures ExtractTextFromFiles(paths + [p]) == ExtractTextFromFiles(paths) + "\n" + Snippet(p)
  {
    assert Snippets(paths + [p])[..|paths|] == Snippets(paths);
  }

  /** Only the final component is named: the directories a file sits in do not show. */
  lemma OnlyFinalComponent(dirs: seq<string>, name: string)
    ensures Snippet(Path(dirs + [name])) == Snippet(Path([name]))
  {
  }
}
