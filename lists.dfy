/** Sequence operations shared by the list editors and the aggregations. */
module Lists {

  /** No element occurs twice. */
  predicate Distinct<T(==)>(s: seq<T>) {
    forall i, j :: 0 <= i < j < |s| ==> s[i] != s[j]
  }

  /**
   * `list.filter((_, j) => j !== i)`, and equally `copy.splice(i, 1)`:
   * every position except `i`, in their order; an index past the end removes nothing.
   */
  function RemoveAt<T>(s: seq<T>, i: nat): (r: seq<T>)
    ensures i < |s| ==> |r| == |s| - 1 && multiset(r) + multiset{s[i]} == multiset(s)
    ensures |s| <= i ==> r == s
    ensures forall k :: 0 <= k < |r| ==> r[k] == (if k < i then s[k] else s[k + 1])
  {
    if i < |s| then
      assert s == s[..i] + [s[i]] + s[i + 1..];
      s[..i] + s[i + 1..]
    else s
  }

  /** Removing a position and putting its element back where it was restores the list. */
  lemma RemoveAtInverse<T>(s: seq<T>, i: nat)
    requires i < |s|
    ensures RemoveAt(s, i)[..i] + [s[i]] + RemoveAt(s, i)[i..] == s
  {
    var r := RemoveAt(s, i);
    assert r[..i] == s[..i];
    assert r[i..] == s[i + 1..];
    assert s == s[..i] + [s[i]] + s[i + 1..];
  }

  /** Appending an item and then removing the last position gives the list back. */
  lemma RemoveAppended<T>(s: seq<T>, x: T)
    ensures RemoveAt(s + [x], |s|) == s
  {
    assert (s + [x])[..|s|] == s;
  }

  /** Writing position `i` changes that position only, and writing back its old value undoes it. */
  lemma UpdateAtLaws<T>(s: seq<T>, i: nat, x: T)
    requires i < |s|
    ensures |s[i := x]| == |s| && s[i := x][i] == x
    ensures forall j :: 0 <= j < |s| && j != i ==> s[i := x][j] == s[j]
    ensures s[i := x][i := s[i]] == s
  {
  }

  /** `p` negated: the predicate of the complementary `filter`. */
  function Not<T>(p: T -> bool): T -> bool {
    x => !p(x)
  }

  /** `s.filter(p)`: the elements satisfying `p`, in their order. */
  function Filter<T>(s: seq<T>, p: T -> bool): (r: seq<T>)
    ensures |r| <= |s|
    decreases |s|
  {
    if s == [] then []
    else
      var init := s[..|s| - 1];
      assert s == init + [s[|s| - 1]];
      Filter(init, p) + (if p(s[|s| - 1]) then [s[|s| - 1]] else [])
  }

  /** Filtering distributes over concatenation, so it keeps the relative order. */
  lemma {:induction false} FilterAppend<T>(a: seq<T>, b: seq<T>, p: T -> bool)
    ensures Filter(a + b, p) == Filter(a, p) + Filter(b, p)
    decreases |b|
  {
    if b == [] {
      assert a + b == a;
    } else {
      var init := b[..|b| - 1];
      assert b == init + [b[|b| - 1]];
      assert (a + b)[..|a + b| - 1] == a + init;
      FilterAppend(a, init, p);
    }
  }

  /** A filter that keeps everything is the identity; one that keeps nothing is empty. */
  lemma {:induction false} FilterAllOrNone<T>(s: seq<T>, p: T -> bool)
    ensures (forall k :: 0 <= k < |s| ==> p(s[k])) ==> Filter(s, p) == s
    ensures (forall k :: 0 <= k < |s| ==> !p(s[k])) ==> Filter(s, p) == []
    decreases |s|
  {
    if s != [] {
      var init := s[..|s| - 1];
      assert s == init + [s[|s| - 1]];
      FilterAllOrNone(init, p);
    }
  }

  /** An element is kept exactly when it is in the list and satisfies the predicate. */
  lemma {:induction false} FilterMember<T>(s: seq<T>, p: T -> bool, x: T)
    ensures x in Filter(s, p) <==> x in s && p(x)
    decreases |s|
  {
    if s != [] {
      var init := s[..|s| - 1];
      assert s == init + [s[|s| - 1]];
      FilterMember(init, p, x);
    }
  }

  /** Everything a filter keeps satisfies its predicate. */
  lemma {:induction false} FilterSatisfies<T>(s: seq<T>, p: T -> bool)
    ensures forall k :: 0 <= k < |Filter(s, p)| ==> p(Filter(s, p)[k])
    decreases |s|
  {
    if s != [] {
      var init := s[..|s| - 1];
      assert s == init + [s[|s| - 1]];
      FilterSatisfies(init, p);
    }
  }

  /** Two predicates that agree on every element of the list filter it alike. */
  lemma {:induction false} FilterCongruent<T>(s: seq<T>, p: T -> bool, q: T -> bool)
    requires forall k :: 0 <= k < |s| ==> p(s[k]) == q(s[k])
    ensures Filter(s, p) == Filter(s, q)
    decreases |s|
  {
    if s != [] {
      var init := s[..|s| - 1];
      assert s == init + [s[|s| - 1]];
      FilterCongruent(init, p, q);
    }
  }

  /**
   * A stronger predicate keeps at most as many elements, and exactly as many when no
   * element of the list satisfies the weaker predicate alone.
   */
  lemma {:induction false} FilterStrongerCount<T>(s: seq<T>, p: T -> bool, q: T -> bool)
    requires forall k :: 0 <= k < |s| && q(s[k]) ==> p(s[k])
    ensures |Filter(s, q)| <= |Filter(s, p)|
    ensures |Filter(s, q)| == |Filter(s, p)| <==> forall k :: 0 <= k < |s| && p(s[k]) ==> q(s[k])
    decreases |s|
  {
    if s != [] {
      var init := s[..|s| - 1];
      var x := s[|s| - 1];
      assert s == init + [x];
      assert forall k :: 0 <= k < |init| ==> init[k] == s[k];
      FilterStrongerCount(init, p, q);
      if p(x) && !q(x) {
        assert |Filter(s, q)| < |Filter(s, p)|;
      }
    }
  }

  /** A filter and its complement together hold every element exactly as often as the list. */
  lemma {:induction false} FilterSplit<T>(s: seq<T>, p: T -> bool)
    ensures multiset(Filter(s, p)) + multiset(Filter(s, Not(p))) == multiset(s)
    decreases |s|
  {
    if s != [] {
      var init := s[..|s| - 1];
      assert s == init + [s[|s| - 1]];
      FilterSplit(init, p);
    }
  }

  /** Filtering a one-element list. */
  lemma FilterSingleton<T>(x: T, p: T -> bool)
    ensures Filter([x], p) == if p(x) then [x] else []
  {
    assert [x][..0] == [];
  }

  /** Filtering a list cut at position `j`. */
  lemma FilterSplitAt<T>(t: seq<T>, j: nat, p: T -> bool)
    requires j <= |t|
    ensures Filter(t, p) == Filter(t[..j], p) + Filter(t[j..], p)
  {
    assert t == t[..j] + t[j..];
    FilterAppend(t[..j], t[j..], p);
  }

  /** The filter of a list split around position `j`, with and without that position. */
  lemma FilterAround<T>(t: seq<T>, j: nat, p: T -> bool)
    requires j < |t|
    ensures Filter(t, p) == Filter(t[..j], p) + Filter([t[j]], p) + Filter(t[j + 1..], p)
    ensures Filter(RemoveAt(t, j), p) == Filter(t[..j], p) + Filter(t[j + 1..], p)
  {
    FilterSingledOut(t, j, p);
    FilterRemoveAtSplit(t, j, p);
  }

  lemma FilterSingledOut<T>(t: seq<T>, j: nat, p: T -> bool)
    requires j < |t|
    ensures Filter(t, p) == Filter(t[..j], p) + Filter([t[j]], p) + Filter(t[j + 1..], p)
  {
    FilterSplitAt(t, j, p);
    FilterSplitAt(t[j..], 1, p);
    assert t[j..][..1] == [t[j]];
    assert t[j..][1..] == t[j + 1..];
  }

  lemma FilterRemoveAtSplit<T>(t: seq<T>, j: nat, p: T -> bool)
    requires j < |t|
    ensures Filter(RemoveAt(t, j), p) == Filter(t[..j], p) + Filter(t[j + 1..], p)
  {
    assert RemoveAt(t, j) == t[..j] + t[j + 1..];
    FilterAppend(t[..j], t[j + 1..], p);
  }

  /** Removing position `j` takes its element out of the filtered list when `p` keeps it. */
  lemma FilterRemoveAt<T>(t: seq<T>, j: nat, p: T -> bool)
    requires j < |t|
    ensures multiset(Filter(t, p)) ==
              multiset(Filter(RemoveAt(t, j), p)) + (if p(t[j]) then multiset{t[j]} else multiset{})
  {
    FilterAround(t, j, p);
    FilterSingleton(t[j], p);
    MultisetOfThree(Filter(t[..j], p), Filter([t[j]], p), Filter(t[j + 1..], p));
  }

  lemma MultisetOfThree<T>(a: seq<T>, m: seq<T>, b: seq<T>)
    ensures multiset(a + m + b) == multiset(a + b) + multiset(m)
  {
    assert multiset(a + m + b) == multiset(a) + multiset(m) + multiset(b);
  }

  lemma MultisetCancel<T>(a: multiset<T>, b: multiset<T>, x: T)
    requires a + multiset{x} == b + multiset{x}
    ensures a == b
  {
    assert forall y :: a[y] == (a + multiset{x})[y] - (if y == x then 1 else 0);
    assert forall y :: b[y] == (b + multiset{x})[y] - (if y == x then 1 else 0);
  }

  /** Permuting a list permutes what any filter keeps of it. */
  lemma {:induction false} FilterPermutes<T>(s: seq<T>, t: seq<T>, p: T -> bool)
    requires multiset(s) == multiset(t)
    ensures multiset(Filter(s, p)) == multiset(Filter(t, p))
    decreases |s|
  {
    if s == [] {
      assert |t| == |multiset(t)| == 0;
    } else {
      var init := s[..|s| - 1];
      var x := s[|s| - 1];
      assert s == init + [x];
      assert multiset(s) == multiset(init) + multiset{x};
      assert x in multiset(t);
      var j :| 0 <= j < |t| && t[j] == x;
      var rest := RemoveAt(t, j);
      MultisetCancel(multiset(rest), multiset(init), x);
      FilterPermutes(init, rest, p);
      FilterRemoveAt(t, j, p);
      FilterAppend(init, [x], p);
      FilterSingleton(x, p);
    }
  }

  /**
   * The distinct elements of `s` in order of first appearance: the key order of a
   * JavaScript `Map` or object whose keys were inserted while walking `s`.
   */
  function Dedup<T(==,!new)>(s: seq<T>): (r: seq<T>)
    ensures Distinct(r)
    ensures forall x :: x in r <==> x in s
    ensures |r| <= |s|
    decreases |s|
  {
    if s == [] then []
    else
      var init := s[..|s| - 1];
      var d := Dedup(init);
      assert s == init + [s[|s| - 1]];
      if s[|s| - 1] in d then d else d + [s[|s| - 1]]
  }

  /** Walking one more element appends it to the distinct elements when it is new. */
  lemma DedupSnoc<T(!new)>(s: seq<T>, x: T)
    ensures Dedup(s + [x]) == if x in s then Dedup(s) else Dedup(s) + [x]
  {
    assert (s + [x])[..|s|] == s;
  }

  /** Position of the first occurrence of `x` in `s`. */
  function FirstIndex<T(==)>(s: seq<T>, x: T): (k: nat)
    requires x in s
    ensures k < |s| && s[k] == x && x !in s[..k]
  {
    if s[0] == x then 0
    else
      assert x in s[1..];
      1 + FirstIndex(s[1..], x)
  }

  lemma {:induction false} FirstIndexOfPrefix<T>(s: seq<T>, n: nat, x: T)
    requires n <= |s| && x in s[..n]
    ensures x in s && FirstIndex(s, x) == FirstIndex(s[..n], x)
  {
    assert s[..n] == s[..n][..|s[..n]|];
    if s[0] != x {
      assert s[1..][..n - 1] == s[..n][1..];
      FirstIndexOfPrefix(s[1..], n - 1, x);
    }
  }

  /** `Dedup` lists the elements in increasing order of their first occurrence. */
  lemma {:induction false} DedupOrder<T(!new)>(s: seq<T>, i: nat, j: nat)
    requires i < j < |Dedup(s)|
    ensures FirstIndex(s, Dedup(s)[i]) < FirstIndex(s, Dedup(s)[j])
    decreases |s|
  {
    var init := s[..|s| - 1];
    var last := s[|s| - 1];
    var d := Dedup(init);
    assert s == init + [last];
    assert init == s[..|s| - 1];
    FirstIndexOfPrefix(s, |s| - 1, d[i]);
    if j < |d| {
      FirstIndexOfPrefix(s, |s| - 1, d[j]);
      DedupOrder(init, i, j);
    } else {
      assert Dedup(s)[j] == last && last !in init;
      assert FirstIndex(s, last) == |s| - 1;
    }
  }
}
