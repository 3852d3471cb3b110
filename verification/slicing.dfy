/** Cutting a list into consecutive slices of seven, the last one possibly
    shorter: the offer's slides of at most seven rows (lib/helpers.js) and
    the calendar's weeks of seven cells (pages/calendar.js). Both loops use
    the same width, seven, written out here. */
module Slicing {

  /** The number of slices of seven that `n` items need: n / 7 rounded up. */
  function SliceCount(n: nat): nat {
    (n + 6) / 7
  }

  /** Where slice `i` of `n` items ends: seven further on, or at the end
      (`slice` clips its end to the length). */
  function SliceEnd(n: nat, i: nat): nat {
    if 7 * i + 7 <= n then 7 * i + 7 else n
  }

  /** `parts` are `s.slice(o, o + 7)` for o = 0, 7, 14, ... while o < |s|. */
  ghost predicate IsSlicing<T>(s: seq<T>, parts: seq<seq<T>>) {
    |parts| == SliceCount(|s|) &&
    forall i :: 0 <= i < |parts| ==> 7 * i < |s| && parts[i] == s[7 * i..SliceEnd(|s|, i)]
  }

  /** The items of the slices, one slice after another. */
  function Concat<T>(parts: seq<seq<T>>): seq<T> {
    if parts == [] then [] else Concat(parts[..|parts| - 1]) + parts[|parts| - 1]
  }

  /** Slice `k` is the last one exactly when `7 * k + 7` reaches the item
      count: the test both loops use. */
  lemma LastSliceTest(n: nat, k: nat)
    requires 7 * k < n
    ensures k < SliceCount(n)
    ensures (7 * k + 7 >= n) <==> k == SliceCount(n) - 1
  {
  }

  /** The first `k` slices put together are the first `7 * k` items. */
  lemma {:induction false} ConcatPrefix<T>(s: seq<T>, parts: seq<seq<T>>, k: nat)
    requires IsSlicing(s, parts)
    requires k <= |parts|
    ensures Concat(parts[..k]) == s[..if k == 0 then 0 else SliceEnd(|s|, k - 1)]
  {
    if k > 0 {
      assert parts[..k][..k - 1] == parts[..k - 1];
      ConcatPrefix(s, parts, k - 1);
      if k - 1 > 0 {
        assert SliceEnd(|s|, k - 2) == 7 * (k - 1);
      }
      var e := if k - 1 == 0 then 0 else SliceEnd(|s|, k - 2);
      assert s[..e] + s[e..SliceEnd(|s|, k - 1)] == s[..SliceEnd(|s|, k - 1)];
    }
  }

  /** What a slicing promises: the slices put together give back the list,
      none is empty, none holds more than seven items, and all but the last
      hold exactly seven. An empty list has no slices. */
  lemma SlicingProperties<T>(s: seq<T>, parts: seq<seq<T>>)
    requires IsSlicing(s, parts)
    ensures Concat(parts) == s
    ensures forall i :: 0 <= i < |parts| ==> 0 < |parts[i]| <= 7
    ensures forall i :: 0 <= i < |parts| - 1 ==> |parts[i]| == 7
    ensures s == [] <==> parts == []
  {
    ConcatPrefix(s, parts, |parts|);
    assert parts[..|parts|] == parts;
    if parts != [] {
      LastSliceTest(|s|, |parts| - 1);
    }
  }

  /** Item `j` of the list is item `j % 7` of slice `j / 7`. */
  lemma SliceOfItem<T>(s: seq<T>, parts: seq<seq<T>>, j: nat)
    requires IsSlicing(s, parts)
    requires j < |s|
    ensures j / 7 < |parts| && j % 7 < |parts[j / 7]|
    ensures parts[j / 7][j % 7] == s[j]
  {
    var k := j / 7;
    assert 7 * k <= j < 7 * k + 7;
  }

  /** Element `j` of part `k` sits, in the concatenation, after the parts
      before it. */
  lemma {:induction false} ConcatAt<T>(parts: seq<seq<T>>, k: nat, j: nat)
    requires k < |parts| && j < |parts[k]|
    ensures |Concat(parts[..k])| + j < |Concat(parts)|
    ensures Concat(parts)[|Concat(parts[..k])| + j] == parts[k][j]
  {
    var n := |parts| - 1;
    if k < n {
      assert parts[..n][..k] == parts[..k];
      ConcatAt(parts[..n], k, j);
    } else {
      assert parts[..n] == parts[..k];
    }
  }

  /** `ConcatAt` with the joined sequence and the length before part `k`
      given by name. */
  lemma ConcatAtOffset<T>(all: seq<T>, parts: seq<seq<T>>, before: nat, k: nat, j: nat)
    requires k < |parts| && j < |parts[k]|
    requires all == Concat(parts) && before == |Concat(parts[..k])|
    ensures before + j < |all| && all[before + j] == parts[k][j]
  {
    ConcatAt(parts, k, j);
  }
}
