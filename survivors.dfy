/**
 * The `for item in data: try: out.append(build(item)) except Exception:
 * continue` pattern shared by every payload parser: each item is built on
 * its own, and an item whose construction raises is dropped.
 */
module Survivors {
  import opened Wrappers

  /** What one attempt contributes to the output list. */
  function Survivor<T>(r: Result<T>): (s: seq<T>)
    ensures r.Ok? ==> s == [r.value]
    ensures r.Err? <==> s == []
  {
    if r.Ok? then [r.value] else []
  }

  /** The built values of the items whose construction succeeds, in item order. */
  function Collect<A, T>(items: seq<A>, build: A -> Result<T>): (r: seq<T>)
    ensures |r| <= |items|
  {
    if items == [] then []
    else Collect(items[..|items| - 1], build) + Survivor(build(items[|items| - 1]))
  }

  /** Collecting a concatenation collects each part: no item's failure disturbs another's survival or order. */
  lemma {:induction false} CollectAppend<A, T>(a: seq<A>, b: seq<A>, build: A -> Result<T>)
    ensures Collect(a + b, build) == Collect(a, build) + Collect(b, build)
    decreases |b|
  {
    if b == [] {
      assert a + b == a;
    } else {
      var b' := b[..|b| - 1];
      assert (a + b)[..|a + b| - 1] == a + b';
      assert (a + b)[|a + b| - 1] == b[|b| - 1];
      CollectAppend(a, b', build);
    }
  }

  lemma {:induction false} CollectSingle<A, T>(x: A, build: A -> Result<T>)
    ensures Collect([x], build) == Survivor(build(x))
  {
    assert [x][..0] == [];
  }

  lemma SplitAround<A>(items: seq<A>, k: nat)
    requires k < |items|
    ensures items == items[..k] + ([items[k]] + items[k + 1..])
  {
    assert items[k..] == [items[k]] + items[k + 1..];
    assert items == items[..k] + items[k..];
  }

  lemma Regroup<T>(a: seq<T>, b: seq<T>, c: seq<T>)
    ensures a + (b + c) == a + b + c
  {
  }

  /** The item at position `k` contributes exactly its own survivor between those of its neighbours. */
  lemma {:induction false} Isolation<A, T>(items: seq<A>, k: nat, build: A -> Result<T>)
    requires k < |items|
    ensures Collect(items, build) ==
      Collect(items[..k], build) + Survivor(build(items[k])) + Collect(items[k + 1..], build)
  {
    var pre, x, post := items[..k], items[k], items[k + 1..];
    SplitAround(items, k);
    CollectAppend(pre, [x] + post, build);
    CollectAppend([x], post, build);
    CollectSingle(x, build);
    Regroup(Collect(pre, build), Survivor(build(x)), Collect(post, build));
  }

  /** Every output value is the built value of some item. */
  lemma {:induction false} CollectMembers<A, T>(items: seq<A>, build: A -> Result<T>, t: T)
    requires t in Collect(items, build)
    ensures exists k :: 0 <= k < |items| && build(items[k]) == Ok(t)
  {
    var init := items[..|items| - 1];
    if t in Collect(init, build) {
      CollectMembers(init, build, t);
      var k :| 0 <= k < |init| && build(init[k]) == Ok(t);
      assert items[k] == init[k];
    } else {
      assert build(items[|items| - 1]) == Ok(t);
    }
  }

  /** When no item fails, nothing is dropped: the output is the built values, position by position. */
  lemma {:induction false} CollectAllOk<A, T>(items: seq<A>, build: A -> Result<T>)
    requires forall k :: 0 <= k < |items| ==> build(items[k]).Ok?
    ensures |Collect(items, build)| == |items|
    ensures forall k :: 0 <= k < |items| ==> Collect(items, build)[k] == build(items[k]).value
  {
    if items != [] {
      var init := items[..|items| - 1];
      assert forall k :: 0 <= k < |init| ==> init[k] == items[k];
      CollectAllOk(init, build);
    }
  }

  /** When every item fails, the output is empty. */
  lemma {:induction false} CollectAllErr<A, T>(items: seq<A>, build: A -> Result<T>)
    requires forall k :: 0 <= k < |items| ==> build(items[k]).Err?
    ensures Collect(items, build) == []
  {
    if items != [] {
      var init := items[..|items| - 1];
      assert forall k :: 0 <= k < |init| ==> init[k] == items[k];
      CollectAllErr(init, build);
    }
  }

  /** Two builders that agree on every item collect the same values. */
  lemma {:induction false} CollectCongruent<A, T>(items: seq<A>, f: A -> Result<T>, g: A -> Result<T>)
    requires forall k :: 0 <= k < |items| ==> f(items[k]) == g(items[k])
    ensures Collect(items, f) == Collect(items, g)
  {
    if items != [] {
      var init := items[..|items| - 1];
      assert forall k :: 0 <= k < |init| ==> init[k] == items[k];
      CollectCongruent(init, f, g);
    }
  }

  /**
   * The variant where each attempt also sees how many values were kept
   * before it: `build(item, len(out))`.
   */
  function CollectCounting<A, T>(items: seq<A>, build: (A, nat) -> Result<T>): (r: seq<T>)
    ensures |r| <= |items|
  {
    if items == [] then []
    else
      var prev := CollectCounting(items[..|items| - 1], build);
      prev + Survivor(build(items[|items| - 1], |prev|))
  }

  /** The loop as written: `out = []; for item in items: try: out.append(build(item)) except Exception: continue`. */
  method KeepSurvivors<A, T>(items: seq<A>, build: A -> Result<T>) returns (kept: seq<T>)
    ensures kept == Collect(items, build)
  {
    kept := [];
    var i := 0;
    while i < |items|
      invariant 0 <= i <= |items|
      invariant kept == Collect(items[..i], build)
    {
      assert items[..i + 1][..i] == items[..i];
      var built := build(items[i]);
      if built.Ok? {
        kept := kept + [built.value];
      }
      i := i + 1;
    }
    assert items[..i] == items;
  }

  /** The same loop where the attempt reads `len(out)`. */
  method KeepCounted<A, T>(items: seq<A>, build: (A, nat) -> Result<T>) returns (kept: seq<T>)
    ensures kept == CollectCounting(items, build)
  {
    kept := [];
    var i := 0;
    while i < |items|
      invariant 0 <= i <= |items|
      invariant kept == CollectCounting(items[..i], build)
    {
      assert items[..i + 1][..i] == items[..i];
      var built := build(items[i], |kept|);
      if built.Ok? {
        kept := kept + [built.value];
      }
      i := i + 1;
    }
    assert items[..i] == items;
  }
}
