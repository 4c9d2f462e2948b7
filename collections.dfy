/** The LINQ shapes the services lean on, FirstOrDefault and Where, over sequences. */
module Collections {

  /** A reference that may be null. */
  datatype Option<+T> = None | Some(value: T)

  /** The index of the first element satisfying p (what FirstOrDefault picks), if any. */
  function FirstIndex<T>(xs: seq<T>, p: T -> bool): (r: Option<nat>)
    ensures r.None? <==> forall j :: 0 <= j < |xs| ==> !p(xs[j])
    ensures r.Some? ==> r.value < |xs| && p(xs[r.value]) && forall j :: 0 <= j < r.value ==> !p(xs[j])
  {
    if xs == [] then None
    else if p(xs[0]) then Some(0)
    else match FirstIndex(xs[1..], p)
      case None => None
      case Some(k) => Some(k + 1)
  }

  /** idx lists, in increasing order and each once, exactly the positions of xs whose
      element satisfies p. */
  ghost predicate IsOrderedSelection<T>(xs: seq<T>, p: T -> bool, idx: seq<nat>) {
    && (forall k :: 0 <= k < |idx| ==> idx[k] < |xs| && p(xs[idx[k]]))
    && (forall k, l :: 0 <= k < l < |idx| ==> idx[k] < idx[l])
    && (forall i :: 0 <= i < |xs| && p(xs[i]) ==> i in idx)
  }

  /** The positions of the elements satisfying p, in increasing order. */
  function FilterIndices<T>(xs: seq<T>, p: T -> bool): (idx: seq<nat>)
    ensures IsOrderedSelection(xs, p, idx)
    ensures |idx| <= |xs|
  {
    if xs == [] then []
    else
      var n := |xs| - 1;
      var rest := FilterIndices(xs[..n], p);
      assert forall k :: 0 <= k < |rest| ==> xs[..n][rest[k]] == xs[rest[k]];
      assert forall i :: 0 <= i < n ==> xs[..n][i] == xs[i];
      if p(xs[n]) then rest + [n] else rest
  }

  /** Dropping the last element: a selection none of whose positions is the last one selects
      from the front alone. */
  lemma SelectionOfFront<T>(xs: seq<T>, p: T -> bool, idx: seq<nat>)
    requires |xs| > 0
    requires forall k :: 0 <= k < |idx| ==> idx[k] < |xs| - 1 && p(xs[idx[k]])
    requires forall k, l :: 0 <= k < l < |idx| ==> idx[k] < idx[l]
    requires forall i :: 0 <= i < |xs| - 1 && p(xs[i]) ==> i in idx
    ensures IsOrderedSelection(xs[..|xs| - 1], p, idx)
  {
    var ys := xs[..|xs| - 1];
    assert forall i :: 0 <= i < |ys| ==> ys[i] == xs[i];
  }

  /** When the last element is selected, it is the last selected position, and the others
      select from the front. */
  lemma LastSelected<T>(xs: seq<T>, p: T -> bool, idx: seq<nat>)
    requires IsOrderedSelection(xs, p, idx) && |xs| > 0 && p(xs[|xs| - 1])
    ensures |idx| > 0 && idx[|idx| - 1] == |xs| - 1
    ensures IsOrderedSelection(xs[..|xs| - 1], p, idx[..|idx| - 1])
  {
    var n := |xs| - 1;
    var j :| 0 <= j < |idx| && idx[j] == n;
    var m := |idx| - 1;
    assert idx[m] == n by { if j < m { assert false; } }
    var front := idx[..m];
    forall k | 0 <= k < |front| ensures front[k] < n && p(xs[front[k]]) {
      assert idx[k] < idx[m];
    }
    forall i | 0 <= i < n && p(xs[i]) ensures i in front {
      var k :| 0 <= k < |idx| && idx[k] == i;
      assert front[k] == i;
    }
    SelectionOfFront(xs, p, front);
  }

  /** When the last element is not selected, the same positions select from the front. */
  lemma LastNotSelected<T>(xs: seq<T>, p: T -> bool, idx: seq<nat>)
    requires IsOrderedSelection(xs, p, idx) && |xs| > 0 && !p(xs[|xs| - 1])
    ensures IsOrderedSelection(xs[..|xs| - 1], p, idx)
  {
    forall k | 0 <= k < |idx| ensures idx[k] < |xs| - 1 {
      assert idx[k] != |xs| - 1;
    }
    SelectionOfFront(xs, p, idx);
  }

  /** FilterIndices is the only ordered selection. */
  lemma {:induction false} OrderedSelectionUnique<T>(xs: seq<T>, p: T -> bool, idx: seq<nat>)
    requires IsOrderedSelection(xs, p, idx)
    ensures idx == FilterIndices(xs, p)
    decreases |xs|
  {
    if xs == [] {
      if idx != [] { assert false; }
    } else {
      var n := |xs| - 1;
      if p(xs[n]) {
        LastSelected(xs, p, idx);
        OrderedSelectionUnique(xs[..n], p, idx[..|idx| - 1]);
        assert idx == idx[..|idx| - 1] + [n];
      } else {
        LastNotSelected(xs, p, idx);
        OrderedSelectionUnique(xs[..n], p, idx);
      }
    }
  }

  /** The elements satisfying p, in their original order and each as often as it occurs there
      (Where): the elements at the positions FilterIndices selects. */
  function Filter<T>(xs: seq<T>, p: T -> bool): (r: seq<T>)
    ensures |r| == |FilterIndices(xs, p)| <= |xs|
    ensures forall k :: 0 <= k < |r| ==> r[k] == xs[FilterIndices(xs, p)[k]]
    ensures forall i :: 0 <= i < |r| ==> r[i] in xs && p(r[i])
    ensures forall i :: 0 <= i < |xs| && p(xs[i]) ==> xs[i] in r
  {
    if xs == [] then []
    else
      var n := |xs| - 1;
      var rest := Filter(xs[..n], p);
      var r := rest + (if p(xs[n]) then [xs[n]] else []);
      FilterSnoc(xs, p, rest, r);
      r
  }

  lemma FilterSnoc<T>(xs: seq<T>, p: T -> bool, rest: seq<T>, r: seq<T>)
    requires |xs| > 0
    requires |rest| == |FilterIndices(xs[..|xs| - 1], p)|
    requires forall k :: 0 <= k < |rest| ==> rest[k] == xs[..|xs| - 1][FilterIndices(xs[..|xs| - 1], p)[k]]
    requires r == rest + (if p(xs[|xs| - 1]) then [xs[|xs| - 1]] else [])
    ensures |r| == |FilterIndices(xs, p)|
    ensures forall k :: 0 <= k < |r| ==> r[k] == xs[FilterIndices(xs, p)[k]]
    ensures forall i :: 0 <= i < |r| ==> r[i] in xs && p(r[i])
    ensures forall i :: 0 <= i < |xs| && p(xs[i]) ==> xs[i] in r
  {
    var n := |xs| - 1;
    var front := FilterIndices(xs[..n], p);
    var all := FilterIndices(xs, p);
    assert all == front + (if p(xs[n]) then [n] else []);
    forall k | 0 <= k < |r| ensures r[k] == xs[all[k]] {
      if k < |rest| {
        assert front[k] < n;
        assert all[k] == front[k];
      }
    }
    forall i | 0 <= i < |xs| && p(xs[i]) ensures xs[i] in r {
      var k :| 0 <= k < |all| && all[k] == i;
      assert r[k] == xs[i];
    }
  }

  /** The lists one after another (SelectMany over the identity). */
  function Concat<T>(xss: seq<seq<T>>): seq<T> {
    if xss == [] then [] else Concat(xss[..|xss| - 1]) + xss[|xss| - 1]
  }

  lemma ConcatSnoc<T>(xss: seq<seq<T>>, xs: seq<T>)
    ensures Concat(xss + [xs]) == Concat(xss) + xs
  {
    assert (xss + [xs])[..|xss|] == xss;
  }

  /** Regrouping a concatenation, for steps where the solver does not find it alone. */
  lemma AppendAssociative<T>(a: seq<T>, b: seq<T>, c: seq<T>)
    ensures (a + b) + c == a + (b + c)
  {
  }

  /** Regrouping a union of sets, for steps where the solver does not find it alone. */
  lemma UnionAssociative<T>(a: set<T>, b: set<T>, c: set<T>)
    ensures (a + b) + c == a + (b + c)
  {
  }
}
