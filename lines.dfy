/**
 * The `lines` lists the markdown renderers build: a renderer appends a
 * block of lines per section, segment or step and joins them at the end.
 */
module Lines {
  import opened PyText
  import opened Json

  /** The blocks `f(x)` of the items `xs`, one after another. */
  function FlatMap<T, U>(xs: seq<T>, f: T -> seq<U>): seq<U>
  {
    if xs == [] then [] else FlatMap(xs[..|xs| - 1], f) + f(xs[|xs| - 1])
  }

  /** `for k, x in enumerate(xs, start=1)`, each item's lines after the earlier ones'. */
  function Enumerated<T>(xs: seq<T>, f: (nat, T) -> seq<string>): seq<string>
  {
    if xs == [] then [] else Enumerated(xs[..|xs| - 1], f) + f(|xs|, xs[|xs| - 1])
  }

  lemma EnumeratedSnoc<T>(xs: seq<T>, i: nat, f: (nat, T) -> seq<string>)
    requires i < |xs|
    ensures Enumerated(xs[..i + 1], f) == Enumerated(xs[..i], f) + f(i + 1, xs[i])
  {
    assert xs[..i + 1][..i] == xs[..i];
  }

  lemma AppendAssoc<T>(a: seq<T>, b: seq<T>, c: seq<T>)
    ensures a + b + c == a + (b + c)
  {
  }

  lemma AppendAssoc4<T>(a: seq<T>, b: seq<T>, c: seq<T>, d: seq<T>, e: seq<T>)
    ensures a + b + c + d + e == a + (b + c + d + e)
  {
    assert a + b + c + d + e == a + (b + c + d) + e;
  }

  lemma FlatMapSnoc<T, U>(xs: seq<T>, i: nat, f: T -> seq<U>)
    requires i < |xs|
    ensures FlatMap(xs[..i + 1], f) == FlatMap(xs[..i], f) + f(xs[i])
  {
    assert xs[..i + 1][..i] == xs[..i];
  }

  /** The loop invariant `lines == head + FlatMap(xs[..i], f)` carried past item `i`. */
  lemma FlatMapExtend<T, U>(head: seq<U>, xs: seq<T>, i: nat, f: T -> seq<U>)
    requires i < |xs|
    ensures head + FlatMap(xs[..i + 1], f) == head + FlatMap(xs[..i], f) + f(xs[i])
  {
    FlatMapSnoc(xs, i, f);
  }

  lemma {:induction false} FlatMapAppend<T, U>(xs: seq<T>, ys: seq<T>, f: T -> seq<U>)
    ensures FlatMap(xs + ys, f) == FlatMap(xs, f) + FlatMap(ys, f)
    decreases |ys|
  {
    if ys == [] {
      assert xs + ys == xs;
    } else {
      var ys' := ys[..|ys| - 1];
      assert (xs + ys)[..|xs + ys| - 1] == xs + ys';
      FlatMapAppend(xs, ys', f);
    }
  }

  /** Every line comes from the block of one item. */
  lemma {:induction false} FlatMapMember<T, U>(xs: seq<T>, f: T -> seq<U>, line: U)
    requires line in FlatMap(xs, f)
    ensures exists k :: 0 <= k < |xs| && line in f(xs[k])
  {
    var init := xs[..|xs| - 1];
    if line in FlatMap(init, f) {
      FlatMapMember(init, f, line);
      var k :| 0 <= k < |init| && line in f(init[k]);
      assert xs[k] == init[k];
    }
  }

  /** Every line of every item's block is in the result. */
  lemma {:induction false} FlatMapContains<T, U>(xs: seq<T>, f: T -> seq<U>, k: nat, line: U)
    requires k < |xs| && line in f(xs[k])
    ensures line in FlatMap(xs, f)
  {
    if k < |xs| - 1 {
      var init := xs[..|xs| - 1];
      assert init[k] == xs[k];
      FlatMapContains(init, f, k, line);
    }
  }

  /** `[f"{prefix}{x}" for x in xs]` over strings. */
  function Prefixed(prefix: string, xs: seq<string>): (r: seq<string>)
    ensures |r| == |xs|
  {
    seq(|xs|, k requires 0 <= k < |xs| => prefix + xs[k])
  }

  /** `[f"{prefix}{x}" for x in items]` */
  function Bullets(prefix: string, items: seq<Json>): (r: seq<string>)
    ensures |r| == |items|
  {
    seq(|items|, k requires 0 <= k < |items| => prefix + PyStr(items[k]))
  }

  /** `for x in items: lines.append(f"{prefix}{x}")` */
  method AppendBullets(lines: seq<string>, prefix: string, items: seq<Json>) returns (out: seq<string>)
    ensures out == lines + Bullets(prefix, items)
  {
    out := lines;
    var j := 0;
    while j < |items|
      invariant 0 <= j <= |items|
      invariant out == lines + Bullets(prefix, items[..j])
    {
      assert Bullets(prefix, items[..j + 1]) == Bullets(prefix, items[..j]) + [prefix + PyStr(items[j])];
      out := out + [prefix + PyStr(items[j])];
      j := j + 1;
    }
    assert items[..j] == items;
  }

  predicate StartsWith(line: string, prefix: string)
  {
    |prefix| <= |line| && line[..|prefix|] == prefix
  }

  /** Trailing whitespace after the last non-blank character does not survive `rstrip()`. */
  lemma {:induction false} RStripSpaceSuffix(s: string, w: string)
    requires AllSpace(w)
    ensures RStrip(s + w) == RStrip(s)
    decreases |w|
  {
    if w != [] {
      var w' := w[..|w| - 1];
      assert (s + w)[..|s + w| - 1] == s + w';
      RStripSpaceSuffix(s, w');
    } else {
      assert s + w == s;
    }
  }

  /** The result of `strip()` neither starts nor ends with whitespace. */
  lemma StripTrims(s: string)
    ensures var r := Strip(s); r == [] || (!IsSpace(r[0]) && !IsSpace(r[|r| - 1]))
  {
    var l := LStrip(s);
    var r := RStrip(l);
    if r != [] {
      assert r[0] == l[0];
    }
  }

  /** `"\n".join([heading, ""])` stripped: the heading alone, without trailing whitespace. */
  lemma HeadingOnly(heading: string)
    requires heading != [] && !IsSpace(heading[0])
    ensures Strip(Join([heading, ""], "\n")) == RStrip(heading)
  {
    assert [heading, ""][..1] == [heading];
    assert Join([heading, ""], "\n") == heading + "\n";
    assert LStrip(heading + "\n") == heading + "\n";
    RStripSpaceSuffix(heading, "\n");
  }

  /** `strip()` keeps a leading `prefix` that begins and ends with non-whitespace. */
  lemma StripKeepsPrefix(s: string, prefix: string)
    requires StartsWith(s, prefix) && prefix != []
    requires !IsSpace(prefix[0]) && !IsSpace(prefix[|prefix| - 1])
    ensures StartsWith(Strip(s), prefix)
  {
    assert s[0] == prefix[0];
    assert LStrip(s) == s;
    var r := RStrip(s);
    assert !IsSpace(s[|prefix| - 1]);
    assert r[..|prefix|] == s[..|prefix|];
  }

  /** A line that disagrees with `prefix` at some position does not start with it. */
  lemma DiffersAt(line: string, prefix: string, k: nat)
    requires k < |line| && k < |prefix| && line[k] != prefix[k]
    ensures !StartsWith(line, prefix)
  {
    if |prefix| <= |line| {
      assert line[..|prefix|][k] == line[k];
    }
  }

  lemma StartsWithConcat(prefix: string, rest: string)
    ensures StartsWith(prefix + rest, prefix)
  {
    assert (prefix + rest)[..|prefix|] == prefix;
  }

  lemma StartsWithExtend(line: string, prefix: string, rest: string)
    requires StartsWith(line, prefix)
    ensures StartsWith(line + rest, prefix)
  {
    assert (line + rest)[..|prefix|] == line[..|prefix|];
  }

  /** A joined document starts with its first part. */
  lemma {:induction false} JoinStartsWithFirst(parts: seq<string>, sep: string)
    requires parts != []
    ensures StartsWith(Join(parts, sep), parts[0])
    decreases |parts|
  {
    if |parts| == 1 {
      StartsWithConcat(parts[0], []);
      assert parts[0] + [] == parts[0];
    } else {
      var init := parts[..|parts| - 1];
      JoinStartsWithFirst(init, sep);
      StartsWithExtend(Join(init, sep), parts[0], sep);
      StartsWithExtend(Join(init, sep) + sep, parts[0], parts[|parts| - 1]);
    }
  }

  /** Every bullet starts with its prefix. */
  lemma BulletsStartWith(prefix: string, items: seq<Json>)
    ensures forall line :: line in Bullets(prefix, items) ==> StartsWith(line, prefix)
  {
    forall line | line in Bullets(prefix, items)
      ensures StartsWith(line, prefix)
    {
      var k :| 0 <= k < |items| && Bullets(prefix, items)[k] == line;
      StartsWithConcat(prefix, PyStr(items[k]));
    }
  }
}
