/**
 * The filtered views of the tabbed editors: the whole list tagged with each item's
 * position (`{ ...item, originalIndex }`), filtered down to one tab, and the reorder
 * that puts the items outside the tab first and the tab's items, untagged, after them.
 */
module TaggedLists {
  import opened Lists
  import opened DraggableList

  datatype Tagged<T> = Tagged(item: T, originalIndex: nat)

  /** `list.map((item, index) => ({ ...item, originalIndex: index }))`. */
  function WithIndex<T>(s: seq<T>): (r: seq<Tagged<T>>)
    ensures |r| == |s|
    ensures forall k :: 0 <= k < |r| ==> r[k] == Tagged(s[k], k)
  {
    seq(|s|, k requires 0 <= k < |s| => Tagged(s[k], k))
  }

  /** `reordered.map(({ originalIndex, ...rest }) => rest)`. */
  function Strip<T>(ts: seq<Tagged<T>>): (r: seq<T>)
    ensures |r| == |ts|
    ensures forall k :: 0 <= k < |r| ==> r[k] == ts[k].item
  {
    seq(|ts|, k requires 0 <= k < |ts| => ts[k].item)
  }

  /** A predicate on items, read through the tag. */
  function OnItem<T>(p: T -> bool): Tagged<T> -> bool {
    (t: Tagged<T>) => p(t.item)
  }

  /** The list a tab shows: the tagged items its predicate keeps. */
  function Filtered<T>(s: seq<T>, p: T -> bool): seq<Tagged<T>> {
    Filter(WithIndex(s), OnItem(p))
  }

  /** The whole list after a drag in a tab: the items outside it, then the tab's new order. */
  function Regroup<T>(s: seq<T>, p: T -> bool, reordered: seq<Tagged<T>>): seq<T> {
    Filter(s, Not(p)) + Strip(reordered)
  }

  lemma WithIndexSnoc<T>(s: seq<T>, x: T)
    ensures WithIndex(s + [x]) == WithIndex(s) + [Tagged(x, |s|)]
  {
  }

  lemma StripAppend<T>(a: seq<Tagged<T>>, b: seq<Tagged<T>>)
    ensures Strip(a + b) == Strip(a) + Strip(b)
  {
  }

  /** The last item, tagged with its position, closes the tab's list when the tab takes it. */
  lemma FilteredSnoc<T>(s: seq<T>, x: T, p: T -> bool)
    ensures Filtered(s + [x], p) == Filtered(s, p) + (if p(x) then [Tagged(x, |s|)] else [])
  {
    WithIndexSnoc(s, x);
    FilterAppend(WithIndex(s), [Tagged(x, |s|)], OnItem(p));
    FilterSingleton(Tagged(x, |s|), OnItem(p));
  }

  /** Stripping the tags of a tab's list gives the items the tab's filter keeps, in order. */
  lemma {:induction false} FilteredStrip<T>(s: seq<T>, p: T -> bool)
    ensures Strip(Filtered(s, p)) == Filter(s, p)
    decreases |s|
  {
    if s != [] {
      var init := s[..|s| - 1];
      var x := s[|s| - 1];
      assert s == init + [x];
      FilteredSnoc(init, x, p);
      FilterAppend(init, [x], p);
      FilterSingleton(x, p);
      FilteredStrip(init, p);
      StripAppend(Filtered(init, p), if p(x) then [Tagged(x, |init|)] else []);
    }
  }

  /**
   * Every entry of a tab's list is the item at its `originalIndex` and satisfies the
   * tab's predicate, and the indices increase along the list.
   */
  lemma {:induction false} FilteredIndices<T>(s: seq<T>, p: T -> bool)
    ensures forall k :: 0 <= k < |Filtered(s, p)| ==>
              var t := Filtered(s, p)[k];
              t.originalIndex < |s| && s[t.originalIndex] == t.item && p(t.item)
    ensures forall a, b :: 0 <= a < b < |Filtered(s, p)| ==>
              Filtered(s, p)[a].originalIndex < Filtered(s, p)[b].originalIndex
    decreases |s|
  {
    if s != [] {
      var init := s[..|s| - 1];
      var x := s[|s| - 1];
      assert s == init + [x];
      FilteredSnoc(init, x, p);
      FilteredIndices(init, p);
      var fi := Filtered(init, p);
      forall k | 0 <= k < |fi| ensures s[fi[k].originalIndex] == fi[k].item {
        assert s[fi[k].originalIndex] == init[fi[k].originalIndex];
      }
    }
  }

  /** Every item the tab's predicate takes appears in the tab's list under its own index. */
  lemma {:induction false} FilteredComplete<T>(s: seq<T>, p: T -> bool, j: nat)
    requires j < |s| && p(s[j])
    ensures exists k :: 0 <= k < |Filtered(s, p)| && Filtered(s, p)[k] == Tagged(s[j], j)
    decreases |s|
  {
    var init := s[..|s| - 1];
    var x := s[|s| - 1];
    assert s == init + [x];
    FilteredSnoc(init, x, p);
    if j < |init| {
      assert init[j] == s[j];
      FilteredComplete(init, p, j);
      var k :| 0 <= k < |Filtered(init, p)| && Filtered(init, p)[k] == Tagged(s[j], j);
      assert Filtered(s, p)[k] == Tagged(s[j], j);
    } else {
      assert Filtered(s, p)[|Filtered(init, p)|] == Tagged(s[j], j);
    }
  }

  /** A position is listed in a tab exactly when the tab's predicate takes its item. */
  lemma ListedIff<T>(s: seq<T>, p: T -> bool, j: nat)
    requires j < |s|
    ensures (exists k :: 0 <= k < |Filtered(s, p)| && Filtered(s, p)[k].originalIndex == j) <==> p(s[j])
  {
    FilteredIndices(s, p);
    if p(s[j]) {
      FilteredComplete(s, p, j);
      var k :| 0 <= k < |Filtered(s, p)| && Filtered(s, p)[k] == Tagged(s[j], j);
      assert Filtered(s, p)[k].originalIndex == j;
    }
  }

  /**
   * Regrouping with a permutation of the tab's items permutes the whole list, and every
   * filter of it keeps a permutation of what it kept before.
   */
  lemma RegroupPermutes<T>(s: seq<T>, p: T -> bool, reordered: seq<Tagged<T>>)
    requires multiset(Strip(reordered)) == multiset(Strip(Filtered(s, p)))
    ensures multiset(Regroup(s, p, reordered)) == multiset(s)
    ensures forall q: T -> bool :: multiset(Filter(Regroup(s, p, reordered), q)) == multiset(Filter(s, q))
  {
    FilteredStrip(s, p);
    FilterSplit(s, p);
    var r := Regroup(s, p, reordered);
    assert multiset(r) == multiset(Filter(s, Not(p))) + multiset(Strip(reordered));
    forall q: T -> bool ensures multiset(Filter(r, q)) == multiset(Filter(s, q)) {
      FilterPermutes(r, s, q);
    }
  }

  /**
   * After regrouping, the items outside the tab keep their order among themselves, and
   * the tab shows exactly the reordered items.
   */
  lemma RegroupKeepsGroups<T>(s: seq<T>, p: T -> bool, reordered: seq<Tagged<T>>)
    requires forall k :: 0 <= k < |reordered| ==> p(reordered[k].item)
    ensures Filter(Regroup(s, p, reordered), p) == Strip(reordered)
    ensures Filter(Regroup(s, p, reordered), Not(p)) == Filter(s, Not(p))
  {
    var others := Filter(s, Not(p));
    var moved := Strip(reordered);
    FilterAppend(others, moved, p);
    FilterAppend(others, moved, Not(p));
    FilterSatisfies(s, Not(p));
    FilterAllOrNone(others, p);
    FilterAllOrNone(others, Not(p));
    FilterAllOrNone(moved, p);
    FilterAllOrNone(moved, Not(p));
  }

  /** Untagging commutes with the drag-and-drop move. */
  lemma StripMove<T>(ts: seq<Tagged<T>>, source: nat, destination: nat)
    requires source < |ts| && destination < |ts|
    ensures Strip(Move(ts, source, destination)) == Move(Strip(ts), source, destination)
  {
    MovePermutes(ts, source, destination);
    MovePermutes(Strip(ts), source, destination);
    forall k | 0 <= k < |ts|
      ensures Strip(Move(ts, source, destination))[k] == Move(Strip(ts), source, destination)[k]
    {
      MoveShifts(ts, source, destination, k);
      MoveShifts(Strip(ts), source, destination, k);
    }
  }

  /** A drag inside a tab hands over a permutation of the tab, so the whole list is permuted. */
  lemma DragPermutes<T>(s: seq<T>, p: T -> bool, source: nat, destination: nat)
    requires source < |Filtered(s, p)| && destination < |Filtered(s, p)|
    ensures multiset(Regroup(s, p, Move(Filtered(s, p), source, destination))) == multiset(s)
  {
    StripMove(Filtered(s, p), source, destination);
    MovePermutes(Strip(Filtered(s, p)), source, destination);
    RegroupPermutes(s, p, Move(Filtered(s, p), source, destination));
  }
}
