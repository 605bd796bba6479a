/**
 * `textwrap.shorten(text, width, placeholder)` by its documented contract:
 * whitespace runs collapse to single spaces; if the result still does not fit
 * in `width`, trailing words are dropped until the kept words followed by the
 * placeholder fit.
 */
module TextWrap {
  import opened PyText

  /** `" ".join(text.split())` */
  function Collapse(text: string): string
  {
    Join(Words(text), " ")
  }

  lemma {:induction false} JoinStep(ws: seq<string>, k: nat)
    requires k < |ws|
    ensures Join(ws[..k + 1], " ") == if k == 0 then ws[0] else Join(ws[..k], " ") + " " + ws[k]
  {
    assert ws[..k + 1][..k] == ws[..k];
  }

  /** Joined word prefixes grow strictly with the number of words kept. */
  lemma {:induction false} JoinPrefixGrows(ws: seq<string>, k: nat)
    requires k < |ws| && forall i :: 0 <= i < |ws| ==> ws[i] != []
    ensures |Join(ws[..k], " ")| < |Join(ws[..k + 1], " ")|
  {
    JoinStep(ws, k);
  }

  lemma {:induction false} JoinPrefixMonotone(ws: seq<string>, j: nat, k: nat)
    requires j <= k <= |ws| && forall i :: 0 <= i < |ws| ==> ws[i] != []
    ensures |Join(ws[..j], " ")| <= |Join(ws[..k], " ")|
    ensures j < k ==> |Join(ws[..j], " ")| < |Join(ws[..k], " ")|
    decreases k - j
  {
    if j < k {
      JoinPrefixGrows(ws, j);
      JoinPrefixMonotone(ws, j + 1, k);
    }
  }

  /** Greedy: starting from `k` kept words, keep one more while the joined words stay within `budget`. */
  function FitFrom(ws: seq<string>, k: nat, budget: int): (n: nat)
    requires k <= |ws|
    ensures k <= n <= |ws|
    decreases |ws| - k
  {
    if k < |ws| && |Join(ws[..k + 1], " ")| <= budget then FitFrom(ws, k + 1, budget) else k
  }

  /** The number of leading words whose join fits in `budget`, taking as many as fit. */
  function FitCount(ws: seq<string>, budget: int): nat
  {
    FitFrom(ws, 0, budget)
  }

  lemma {:induction false} FitFromIsMaximal(ws: seq<string>, k: nat, budget: int)
    requires k <= |ws| && forall i :: 0 <= i < |ws| ==> ws[i] != []
    requires |Join(ws[..k], " ")| <= budget
    ensures |Join(ws[..FitFrom(ws, k, budget)], " ")| <= budget
    ensures FitFrom(ws, k, budget) < |ws| ==> |Join(ws[..FitFrom(ws, k, budget) + 1], " ")| > budget
    decreases |ws| - k
  {
    if k < |ws| && |Join(ws[..k + 1], " ")| <= budget {
      FitFromIsMaximal(ws, k + 1, budget);
    }
  }

  /** Greedy fitting keeps the most words that fit, and fewer than all when the whole join does not fit. */
  lemma FitCountBounds(ws: seq<string>, budget: int)
    requires 0 <= budget < |Join(ws, " ")| && forall i :: 0 <= i < |ws| ==> ws[i] != []
    ensures FitCount(ws, budget) < |ws|
    ensures |Join(ws[..FitCount(ws, budget)], " ")| <= budget < |Join(ws[..FitCount(ws, budget) + 1], " ")|
  {
    assert ws[..0] == [];
    FitFromIsMaximal(ws, 0, budget);
    assert ws[..|ws|] == ws;
  }

  /** `shorten` once the text has been split into words. */
  function ShortenWords(ws: seq<string>, width: nat, placeholder: string): string
    requires |placeholder| <= width
  {
    var collapsed := Join(ws, " ");
    if |collapsed| <= width then collapsed
    else
      var k := FitCount(ws, width - |placeholder|);
      if k == 0 then LStrip(placeholder) else Join(ws[..k], " ") + placeholder
  }

  /** `textwrap.shorten`; the library itself raises `ValueError` when the placeholder is wider than `width`. */
  function Shorten(text: string, width: nat, placeholder: string): string
    requires |placeholder| <= width
  {
    ShortenWords(Words(text), width, placeholder)
  }

  /** How many leading words `shorten` keeps when the collapsed text does not fit. */
  function Kept(text: string, width: nat, placeholder: string): nat
  {
    FitCount(Words(text), width - |placeholder|)
  }

  lemma ShortenWordsFits(ws: seq<string>, width: nat, placeholder: string)
    requires |placeholder| <= width && forall i :: 0 <= i < |ws| ==> ws[i] != []
    ensures |ShortenWords(ws, width, placeholder)| <= width
  {
    if |Join(ws, " ")| > width {
      FitCountBounds(ws, width - |placeholder|);
    }
  }

  /** The result never exceeds `width`, and is the collapsed text whenever that fits. */
  lemma ShortenFits(text: string, width: nat, placeholder: string)
    requires |placeholder| <= width
    ensures |Shorten(text, width, placeholder)| <= width
    ensures |Collapse(text)| <= width ==> Shorten(text, width, placeholder) == Collapse(text)
  {
    ShortenWordsFits(Words(text), width, placeholder);
  }

  /**
   * When the collapsed text is too wide, at least one word is dropped, and the
   * result is the kept words followed by the placeholder, or the placeholder
   * alone when not even the first word fits beside it.
   */
  lemma ShortenTruncates(text: string, width: nat, placeholder: string)
    requires |placeholder| <= width && |Collapse(text)| > width
    ensures Kept(text, width, placeholder) < |Words(text)|
    ensures Shorten(text, width, placeholder) ==
      var k := Kept(text, width, placeholder);
      if k == 0 then LStrip(placeholder) else Join(Words(text)[..k], " ") + placeholder
  {
    FitCountBounds(Words(text), width - |placeholder|);
  }

  /** The kept words are the longest run of leading words that fits beside the placeholder. */
  lemma KeptIsLongestFit(text: string, width: nat, placeholder: string)
    requires |placeholder| <= width && |Collapse(text)| > width
    ensures Kept(text, width, placeholder) < |Words(text)|
    ensures |Join(Words(text)[..Kept(text, width, placeholder)], " ")| + |placeholder| <= width
    ensures |Join(Words(text)[..Kept(text, width, placeholder) + 1], " ")| + |placeholder| > width
  {
    FitCountBounds(Words(text), width - |placeholder|);
  }

  /** Text made only of whitespace collapses to the empty string, which always fits. */
  lemma {:induction false} ShortenBlank(text: string, width: nat, placeholder: string)
    requires |placeholder| <= width && AllSpace(text)
    ensures Shorten(text, width, placeholder) == ""
  {
    BlankHasNoWords(text);
  }
}
