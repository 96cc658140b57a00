/**
 * PHP's `implode` over lists of strings, and a `Split` that undoes it,
 * so that "the items joined by a separator" can be stated as a round trip.
 */
module Strings {

  /** `implode(sep, items)`: the items in order, `sep` between neighbours, "" for no items. */
  function Implode(sep: string, items: seq<string>): string
  {
    if |items| == 0 then ""
    else if |items| == 1 then items[0]
    else Implode(sep, items[..|items| - 1]) + sep + items[|items| - 1]
  }

  /** Plain concatenation of the items (`implode("", items)`). */
  function Concat(items: seq<string>): string
  {
    if |items| == 0 then "" else Concat(items[..|items| - 1]) + items[|items| - 1]
  }

  /** The pieces of `s` between occurrences of the character `c` (always at least one piece). */
  function Split(c: char, s: string): (r: seq<string>)
    ensures |r| >= 1
  {
    if s == [] then [""]
    else
      var rest := Split(c, s[1..]);
      if s[0] == c then [""] + rest else [[s[0]] + rest[0]] + rest[1..]
  }

  /** `a` is an initial segment of `b`. */
  ghost predicate IsPrefix<T>(a: seq<T>, b: seq<T>)
  {
    |a| <= |b| && b[..|a|] == a
  }

  lemma {:induction false} ImplodeSnoc(sep: string, items: seq<string>, x: string)
    requires |items| > 0
    ensures Implode(sep, items + [x]) == Implode(sep, items) + sep + x
  {
    assert (items + [x])[..|items|] == items;
  }

  lemma {:induction false} ConcatSnoc(items: seq<string>, x: string)
    ensures Concat(items + [x]) == Concat(items) + x
  {
    assert (items + [x])[..|items|] == items;
  }

  /** A string without the separator character is a single piece. */
  lemma {:induction false} SplitWithout(c: char, s: string)
    requires c !in s
    ensures Split(c, s) == [s]
  {
    if s != [] {
      assert c !in s[1..] by {
        forall k | 0 <= k < |s[1..]| ensures s[1..][k] != c { assert s[1..][k] == s[k + 1]; }
      }
      SplitWithout(c, s[1..]);
      assert [s[0]] + s[1..] == s;
    }
  }

  /** Splitting at one occurrence of the separator splits the two sides independently. */
  lemma {:induction false} SplitAround(c: char, a: string, b: string)
    ensures Split(c, a + [c] + b) == Split(c, a) + Split(c, b)
  {
    var s := a + [c] + b;
    if a == [] {
      assert s[0] == c && s[1..] == b;
    } else {
      assert s[0] == a[0];
      assert s[1..] == a[1..] + [c] + b;
      SplitAround(c, a[1..], b);
    }
  }

  /**
   * Round trip: splitting `implode(c, items)` at `c` gives back the items, provided there is at
   * least one item and no item contains `c`.
   */
  lemma {:induction false} SplitImplode(c: char, items: seq<string>)
    requires |items| > 0
    requires forall i :: 0 <= i < |items| ==> c !in items[i]
    ensures Split(c, Implode([c], items)) == items
  {
    var n := |items|;
    if n == 1 {
      SplitWithout(c, items[0]);
    } else {
      var init := items[..n - 1];
      assert forall i :: 0 <= i < |init| ==> init[i] == items[i];
      SplitImplode(c, init);
      SplitAround(c, Implode([c], init), items[n - 1]);
      SplitWithout(c, items[n - 1]);
      assert Implode([c], items) == Implode([c], init) + [c] + items[n - 1];
      assert init + [items[n - 1]] == items;
    }
  }
}
