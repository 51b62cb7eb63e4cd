/**
 * String helpers shared by the renderers: prefix and suffix tests, plain
 * concatenation of pieces, the ", "-separated join used by the table-level
 * column lists, and concatenation of one rendered piece per list element.
 * Every list function is defined from the back, the way a renderer that
 * appends to a buffer builds its output.
 */
module Strings {

  predicate StartsWith(s: string, p: string)
  {
    |p| <= |s| && s[..|p|] == p
  }

  predicate EndsWith(s: string, p: string)
  {
    |p| <= |s| && s[|s| - |p|..] == p
  }

  lemma AppendAssociative(a: string, b: string, c: string)
    ensures a + b + c == a + (b + c)
  {
  }

  /** Writing a line piece by piece is writing the whole line, indented and terminated. */
  lemma AppendLine(s: string, x: string)
    ensures s + "\t\t" + x + "\n" == s + ("\t\t" + x + "\n")
  {
  }

  lemma AppendParts(a: string, b: string)
    ensures StartsWith(a + b, a) && EndsWith(a + b, b) && (a + b)[|a|..] == b
  {
    assert (a + b)[..|a|] == a;
  }

  lemma StartsWithExtend(s: string, p: string, x: string)
    requires StartsWith(s, p)
    ensures StartsWith(s + x, p)
  {
    assert (s + x)[..|p|] == s[..|p|];
  }

  lemma StartsWithTrans(s: string, p: string, q: string)
    requires StartsWith(s, p) && StartsWith(p, q)
    ensures StartsWith(s, q)
  {
    assert s[..|q|] == s[..|p|][..|q|];
  }

  lemma StartsWithRest(s: string, a: string, b: string)
    requires StartsWith(s, a + b)
    ensures StartsWith(s[|a|..], b)
  {
    assert s[|a|..][..|b|] == (a + b)[|a|..];
  }

  lemma StartsWithSelf(s: string)
    ensures StartsWith(s, s)
  {
    assert s[..|s|] == s;
  }

  lemma StartsWithPrepend(a: string, s: string, p: string)
    requires StartsWith(s, p)
    ensures StartsWith(a + s, a + p)
  {
    assert (a + s)[..|a + p|] == a + s[..|p|];
  }

  /**
   * A keyword `k`, then an optional `word`, then a tail `c` that cannot be
   * mistaken for `word`: the text starts with `k`, and `word` follows `k`
   * exactly when it was written.
   */
  lemma OptionalAfter(k: string, a: string, c: string, word: string, j: nat)
    requires a == word || a == ""
    requires j < |word| && (|word| <= |c| ==> c[j] != word[j])
    ensures StartsWith(k + a + c, k)
    ensures StartsWith((k + a + c)[|k|..], word) <==> a == word
  {
    AppendAssociative(k, a, c);
    AppendParts(k, a + c);
    if a == word {
      AppendParts(a, c);
    } else {
      assert a + c == c;
      NotStartsWith(c, word, j);
    }
  }

  /** A text that starts (ends) with `p` has `p`'s characters in the same places. */
  lemma StartsWithChar(s: string, p: string, j: nat)
    requires StartsWith(s, p) && j < |p|
    ensures s[j] == p[j]
  {
    assert s[..|p|][j] == s[j];
  }

  lemma EndsWithChar(s: string, p: string, j: nat)
    requires EndsWith(s, p) && j < |p|
    ensures s[|s| - |p| + j] == p[j]
  {
    assert s[|s| - |p|..][j] == s[|s| - |p| + j];
  }

  /** A character that differs from `p`'s at the same place rules out a prefix (suffix). */
  lemma NotStartsWith(s: string, p: string, j: nat)
    requires j < |p| && (|p| <= |s| ==> s[j] != p[j])
    ensures !StartsWith(s, p)
  {
    if |p| <= |s| {
      assert s[..|p|][j] == s[j];
    }
  }

  lemma NotEndsWith(s: string, p: string, j: nat)
    requires j < |p| && (|p| <= |s| ==> s[|s| - |p| + j] != p[j])
    ensures !EndsWith(s, p)
  {
    if |p| <= |s| {
      assert s[|s| - |p|..][j] == s[|s| - |p| + j];
    }
  }

  /** `x` occurs in `s` starting at position `k`. */
  predicate SlotAt(s: string, k: nat, x: string)
  {
    k + |x| <= |s| && s[k..k + |x|] == x
  }

  lemma SlotBetween(a: string, x: string, b: string)
    ensures SlotAt(a + x + b, |a|, x)
  {
    assert (a + x + b)[|a|..|a| + |x|] == x;
  }

  /** An occurrence stays one, at a shifted position, when text is added around it. */
  lemma SlotInside(p: string, m: string, rest: string, k: nat, x: string)
    requires SlotAt(m, k, x)
    ensures SlotAt(p + m + rest, |p| + k, x)
  {
    assert (p + m + rest)[|p| + k..|p| + k + |x|] == m[k..k + |x|];
  }

  lemma SlotInsideAtEnd(p: string, m: string, k: nat, x: string)
    requires SlotAt(m, k, x)
    ensures SlotAt(p + m, |p| + k, x)
  {
    assert (p + m)[|p| + k..|p| + k + |x|] == m[k..k + |x|];
  }

  /**
   * Element `i`'s rendering sits right after the prefix `p` and the
   * renderings of the elements before it, whatever comes after the list.
   */
  lemma MapConcatSlot<T>(p: string, xs: seq<T>, f: T -> string, rest: string, i: nat)
    requires i < |xs|
    ensures SlotAt(p + MapConcat(xs, f) + rest, |p| + |MapConcat(xs[..i], f)|, f(xs[i]))
  {
    MapConcatSlice(xs, i, f);
    SlotInside(p, MapConcat(xs, f), rest, |MapConcat(xs[..i], f)|, f(xs[i]));
  }

  /** The same, for a list that ends the text. */
  lemma MapConcatSlotAtEnd<T>(p: string, xs: seq<T>, f: T -> string, i: nat)
    requires i < |xs|
    ensures SlotAt(p + MapConcat(xs, f), |p| + |MapConcat(xs[..i], f)|, f(xs[i]))
  {
    MapConcatSlice(xs, i, f);
    SlotInsideAtEnd(p, MapConcat(xs, f), |MapConcat(xs[..i], f)|, f(xs[i]));
  }

  /** The pieces one after another, with nothing in between. */
  function Concat(ss: seq<string>): string
  {
    if ss == [] then "" else Concat(ss[..|ss| - 1]) + ss[|ss| - 1]
  }

  /** The pieces separated by ", ", with no separator before the first or after the last. */
  function Join(ss: seq<string>): string
  {
    if |ss| == 0 then ""
    else if |ss| == 1 then ss[0]
    else Join(ss[..|ss| - 1]) + ", " + ss[|ss| - 1]
  }

  /** The rendering `f(x)` of every element `x` of `xs`, in order. */
  function MapConcat<T>(xs: seq<T>, f: T -> string): string
  {
    if xs == [] then "" else MapConcat(xs[..|xs| - 1], f) + f(xs[|xs| - 1])
  }

  /** One piece of a join after its first element: the separator, then the element. */
  function Separated(s: string): string
  {
    ", " + s
  }

  lemma MapConcatAppend<T>(xs: seq<T>, x: T, f: T -> string)
    ensures MapConcat(xs + [x], f) == MapConcat(xs, f) + f(x)
  {
    assert (xs + [x])[..|xs|] == xs;
  }

  /** One step of a renderer loop: appending the next element's rendering to the buffer. */
  lemma MapConcatStep<T>(prefix: string, xs: seq<T>, i: nat, f: T -> string, s: string)
    requires i < |xs|
    requires s == prefix + MapConcat(xs[..i], f)
    ensures s + f(xs[i]) == prefix + MapConcat(xs[..i + 1], f)
  {
    assert xs[..i + 1] == xs[..i] + [xs[i]];
    MapConcatAppend(xs[..i], xs[i], f);
  }

  /** Rendering a list is the same as rendering its two halves one after the other. */
  lemma {:induction false} MapConcatSplit<T>(xs: seq<T>, ys: seq<T>, f: T -> string)
    ensures MapConcat(xs + ys, f) == MapConcat(xs, f) + MapConcat(ys, f)
    decreases |ys|
  {
    if ys == [] {
      assert xs + ys == xs;
    } else {
      var ys' := ys[..|ys| - 1];
      var y := ys[|ys| - 1];
      assert ys == ys' + [y];
      assert xs + ys == (xs + ys') + [y];
      MapConcatSplit(xs, ys', f);
      MapConcatAppend(xs + ys', y, f);
      MapConcatAppend(ys', y, f);
      AppendAssociative(MapConcat(xs, f), MapConcat(ys', f), f(y));
    }
  }

  /**
   * The rendering of element `i` sits in the output immediately after the
   * renderings of the elements before it.
   */
  lemma MapConcatSlice<T>(xs: seq<T>, i: nat, f: T -> string)
    requires i < |xs|
    ensures SlotAt(MapConcat(xs, f), |MapConcat(xs[..i], f)|, f(xs[i]))
  {
    var front := xs[..i + 1];
    assert xs == front + xs[i + 1..];
    assert front[..i] == xs[..i];
    MapConcatSplit(front, xs[i + 1..], f);
    SlotBetween(MapConcat(xs[..i], f), f(xs[i]), MapConcat(xs[i + 1..], f));
  }

  lemma ConcatAppend(ss: seq<string>, s: string)
    ensures Concat(ss + [s]) == Concat(ss) + s
  {
    assert (ss + [s])[..|ss|] == ss;
  }

  lemma ConcatStep(prefix: string, ss: seq<string>, i: nat, s: string)
    requires i < |ss|
    requires s == prefix + Concat(ss[..i])
    ensures s + ss[i] == prefix + Concat(ss[..i + 1])
  {
    assert ss[..i + 1] == ss[..i] + [ss[i]];
    ConcatAppend(ss[..i], ss[i]);
  }

  /**
   * Reference description of a join: the first element, then every later
   * element behind exactly one separator.
   */
  lemma {:induction false} JoinFront(ss: seq<string>)
    requires |ss| > 0
    ensures Join(ss) == ss[0] + MapConcat(ss[1..], Separated)
    decreases |ss|
  {
    if |ss| == 1 {
      assert ss[1..] == [];
    } else {
      var init := ss[..|ss| - 1];
      JoinFront(init);
      assert init[0] == ss[0];
      assert ss[1..] == init[1..] + [ss[|ss| - 1]];
      MapConcatAppend(init[1..], ss[|ss| - 1], Separated);
    }
  }

  lemma JoinAppend(ss: seq<string>, s: string)
    requires |ss| > 0
    ensures Join(ss + [s]) == Join(ss) + ", " + s
  {
    assert (ss + [s])[..|ss|] == ss;
  }
}
