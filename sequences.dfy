/** Sequence helpers shared by the model: order-preserving filtering (the list
    comprehension and the accumulating loop of erase_at), removal by index
    (Python's list.pop(i)) and the index range 0..n-1. */
module Sequences {

  /** The elements of s for which keep holds, in their original order. */
  function Filter<T>(s: seq<T>, keep: T -> bool): (r: seq<T>)
    ensures |r| <= |s|
    ensures forall i :: 0 <= i < |r| ==> keep(r[i])
  {
    if s == [] then []
    else
      var init := Filter(s[..|s| - 1], keep);
      assert s == s[..|s| - 1] + [s[|s| - 1]];
      if keep(s[|s| - 1]) then init + [s[|s| - 1]] else init
  }

  /** The positions of s whose element satisfies keep, in increasing order. */
  function Selected<T>(s: seq<T>, keep: T -> bool): seq<nat>
  {
    if s == [] then []
    else Selected(s[..|s| - 1], keep) + (if keep(s[|s| - 1]) then [|s| - 1] else [])
  }

  lemma {:induction false} SelectedPicks<T>(s: seq<T>, keep: T -> bool)
    ensures |Selected(s, keep)| == |Filter(s, keep)|
    ensures forall k :: 0 <= k < |Selected(s, keep)| ==>
              Selected(s, keep)[k] < |s| && Filter(s, keep)[k] == s[Selected(s, keep)[k]]
  {
    if s != [] {
      var n := |s| - 1;
      var init := s[..n];
      SelectedPicks(init, keep);
      var sel0, f0 := Selected(init, keep), Filter(init, keep);
      var sel, f := Selected(s, keep), Filter(s, keep);
      forall k | 0 <= k < |sel|
        ensures sel[k] < |s| && f[k] == s[sel[k]]
      {
        if k < |sel0| {
          assert sel[k] == sel0[k] && f[k] == f0[k] && s[sel0[k]] == init[sel0[k]];
        }
      }
    }
  }

  lemma {:induction false} SelectedIncreasing<T>(s: seq<T>, keep: T -> bool)
    ensures forall k :: 0 <= k < |Selected(s, keep)| ==> Selected(s, keep)[k] < |s|
    ensures forall k :: 0 < k < |Selected(s, keep)| ==> Selected(s, keep)[k - 1] < Selected(s, keep)[k]
  {
    if s != [] {
      var n := |s| - 1;
      SelectedIncreasing(s[..n], keep);
    }
  }

  lemma {:induction false} SelectedExactly<T>(s: seq<T>, keep: T -> bool)
    ensures forall j :: 0 <= j < |s| ==> (keep(s[j]) <==> j in Selected(s, keep))
  {
    if s != [] {
      var n := |s| - 1;
      var init := s[..n];
      SelectedExactly(init, keep);
      SelectedIncreasing(init, keep);
      var sel0 := Selected(init, keep);
      assert n !in sel0;
      forall j | 0 <= j < n
        ensures keep(s[j]) <==> j in Selected(s, keep)
      {
        assert s[j] == init[j];
      }
    }
  }

  /** Filter selects, by position, exactly the elements that satisfy keep,
      and keeps them in their original relative order: idx lists the
      selected positions in strictly increasing order. */
  lemma FilterSelects<T>(s: seq<T>, keep: T -> bool) returns (idx: seq<nat>)
    ensures |idx| == |Filter(s, keep)|
    ensures forall k :: 0 <= k < |idx| ==> idx[k] < |s| && Filter(s, keep)[k] == s[idx[k]]
    ensures forall k :: 0 < k < |idx| ==> idx[k - 1] < idx[k]
    ensures forall j :: 0 <= j < |s| ==> (keep(s[j]) <==> j in idx)
  {
    idx := Selected(s, keep);
    SelectedPicks(s, keep);
    SelectedIncreasing(s, keep);
    SelectedExactly(s, keep);
  }

  /** Filter returns its input unchanged exactly when every element is kept,
      and exactly when it drops nothing. */
  lemma {:induction false} FilterUnchanged<T>(s: seq<T>, keep: T -> bool)
    ensures Filter(s, keep) == s <==> |Filter(s, keep)| == |s|
    ensures Filter(s, keep) == s <==> forall i :: 0 <= i < |s| ==> keep(s[i])
  {
    if s != [] {
      var n := |s| - 1;
      FilterUnchanged(s[..n], keep);
      assert s == s[..n] + [s[n]];
      if !keep(s[n]) {
        assert |Filter(s, keep)| <= n;
      } else {
        assert forall i :: 0 <= i < n ==> s[..n][i] == s[i];
      }
    }
  }

  /** Filtering a two-element sequence that drops the first and keeps the second. */
  lemma FilterDropsFirstOfTwo<T>(x: T, y: T, keep: T -> bool)
    requires !keep(x) && keep(y)
    ensures Filter([x, y], keep) == [y]
  {
    assert [x, y][..1] == [x];
    assert [x][..0] == [];
  }

  /** s with the element at position i removed (Python's s.pop(i)). */
  function RemoveAt<T>(s: seq<T>, i: nat): (r: seq<T>)
    requires i < |s|
    ensures |r| == |s| - 1
    ensures forall k :: 0 <= k < i ==> r[k] == s[k]
    ensures forall k :: i <= k < |r| ==> r[k] == s[k + 1]
  {
    s[..i] + s[i + 1..]
  }

  /** The positions 0, 1, ..., n - 1 in increasing order. */
  function Range(n: nat): (r: seq<nat>)
    ensures |r| == n
    ensures forall k :: 0 <= k < n ==> r[k] == k
  {
    if n == 0 then [] else Range(n - 1) + [n - 1]
  }
}
