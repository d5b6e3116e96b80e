/**
 * The sortable list of the admin editors: dropping the item at `source` on position
 * `destination` copies the list, splices the item out and splices it back in at the
 * destination. The drag library reports both positions inside the list.
 */
module DraggableList {
  import opened Wrappers
  import opened Lists

  /** `copy.splice(k, 0, x)`: `x` inserted before position `k`. */
  function InsertAt<T>(s: seq<T>, k: nat, x: T): (r: seq<T>)
    requires k <= |s|
    ensures |r| == |s| + 1 && r[k] == x
    ensures forall m :: 0 <= m < |r| && m != k ==> r[m] == (if m < k then s[m] else s[m - 1])
  {
    s[..k] + [x] + s[k..]
  }

  /** The list `handleDragEnd` hands to `onReorder`. */
  function Move<T>(s: seq<T>, source: nat, destination: nat): seq<T>
    requires source < |s| && destination < |s|
  {
    InsertAt(RemoveAt(s, source), destination, s[source])
  }

  /** The moved list is a permutation of the list, with the dragged item at the destination. */
  lemma MovePermutes<T>(s: seq<T>, source: nat, destination: nat)
    requires source < |s| && destination < |s|
    ensures |Move(s, source, destination)| == |s|
    ensures multiset(Move(s, source, destination)) == multiset(s)
    ensures Move(s, source, destination)[destination] == s[source]
  {
    var rest := RemoveAt(s, source);
    var r := Move(s, source, destination);
    assert r == rest[..destination] + [s[source]] + rest[destination..];
    assert rest == rest[..destination] + rest[destination..];
    assert multiset(r) == multiset(rest) + multiset{s[source]};
  }

  /**
   * Only the items between source and destination move, each by one place toward the
   * source; every other item keeps its position.
   */
  lemma MoveShifts<T>(s: seq<T>, source: nat, destination: nat, k: nat)
    requires source < |s| && destination < |s| && k < |s|
    ensures Move(s, source, destination)[k] ==
              if k == destination then s[source]
              else if source < destination && source <= k < destination then s[k + 1]
              else if destination < source && destination < k <= source then s[k - 1]
              else s[k]
  {
  }

  /** Dropping an item where it was picked up changes nothing. */
  lemma MoveInPlace<T>(s: seq<T>, i: nat)
    requires i < |s|
    ensures Move(s, i, i) == s
  {
    var r := Move(s, i, i);
    forall k | 0 <= k < |s| ensures r[k] == s[k] {
      MoveShifts(s, i, i, k);
    }
  }

  /** Dragging the item back from the destination to the source restores the list. */
  lemma MoveBack<T>(s: seq<T>, source: nat, destination: nat)
    requires source < |s| && destination < |s|
    ensures Move(Move(s, source, destination), destination, source) == s
  {
    var r := Move(s, source, destination);
    var b := Move(r, destination, source);
    forall k | 0 <= k < |s| ensures b[k] == s[k] {
      MoveShifts(r, destination, source, k);
      if k != source {
        var m := if destination < source && destination <= k < source then k + 1
                 else if source < destination && source < k <= destination then k - 1
                 else k;
        MoveShifts(s, source, destination, m);
      } else {
        MoveShifts(s, source, destination, destination);
      }
    }
  }

  /** Moving down: the items after `source` up to `destination` each move one place up. */
  method CloseGapDown<T>(a: array<T>, source: nat, destination: nat)
    requires source < destination < a.Length
    modifies a
    ensures forall m :: source <= m < destination ==> a[m] == old(a[m + 1])
    ensures forall m :: 0 <= m < a.Length && !(source <= m < destination) ==> a[m] == old(a[m])
  {
    var k := source;
    while k < destination
      invariant source <= k <= destination
      invariant forall m :: source <= m < k ==> a[m] == old(a[m + 1])
      invariant forall m :: 0 <= m < a.Length && !(source <= m < k) ==> a[m] == old(a[m])
    {
      a[k] := a[k + 1];
      k := k + 1;
    }
  }

  /** Moving up: the items from `destination` up to before `source` each move one place down. */
  method CloseGapUp<T>(a: array<T>, source: nat, destination: nat)
    requires destination <= source < a.Length
    modifies a
    ensures forall m :: destination < m <= source ==> a[m] == old(a[m - 1])
    ensures forall m :: 0 <= m < a.Length && !(destination < m <= source) ==> a[m] == old(a[m])
  {
    var k := source;
    while k > destination
      invariant destination <= k <= source
      invariant forall m :: k < m <= source ==> a[m] == old(a[m - 1])
      invariant forall m :: 0 <= m < a.Length && !(k < m <= source) ==> a[m] == old(a[m])
    {
      a[k] := a[k - 1];
      k := k - 1;
    }
  }

  /**
   * `handleDragEnd`: with no destination nothing is reordered. Otherwise a copy of
   * `items` is made and the two splices are carried out on it in place: the dragged item
   * is taken out, the items between it and the destination close the gap, and the item
   * is put down at the destination. `items` itself is only read.
   */
  method HandleDragEnd<T>(items: array<T>, source: nat, destination: Option<nat>) returns (reordered: Option<seq<T>>)
    requires source < items.Length
    requires destination.Some? ==> destination.value < items.Length
    ensures destination.None? <==> reordered.None?
    ensures reordered.Some? ==> reordered.value == Move(items[..], source, destination.value)
  {
    if destination.None? {
      return None;
    }
    var dst := destination.value;
    var n := items.Length;
    ghost var s := items[..];
    var copy := new T[n](i requires 0 <= i < n reads items => items[i]);
    assert copy[..] == s;
    var moved := copy[source];
    if source < dst {
      CloseGapDown(copy, source, dst);
    } else {
      CloseGapUp(copy, source, dst);
    }
    copy[dst] := moved;
    forall m | 0 <= m < n ensures copy[m] == Move(s, source, dst)[m] {
      MoveShifts(s, source, dst, m);
    }
    MovePermutes(s, source, dst);
    assert copy[..] == Move(s, source, dst);
    return Some(copy[..]);
  }
}
