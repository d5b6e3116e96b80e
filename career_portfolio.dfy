/**
 * The tabbed career editor: one tab per career category, each listing the careers of
 * that category tagged with their index in the whole list, so that edits and removals
 * act on the whole list; dragging within a tab rebuilds the whole list as the careers of
 * the other categories followed by the tab's careers in their new order.
 */
module CareerPortfolio {
  import opened Lists
  import opened Entities
  import opened ReactState
  import opened DraggableList
  import opened TaggedLists

  const DramaFilm := "drama_film"
  const BrandEditorial := "brand_editorial"

  /** `item.category === categoryFilter`, the filter of a tab and of its count. */
  function InCategory(cat: string): Career -> bool {
    (c: Career) => c.category == cat
  }

  /** The count in a tab's title. */
  function TabCount(careers: seq<Career>, cat: string): nat {
    |Filter(careers, InCategory(cat))|
  }

  /** What `onReorder` hands to `setCareers`. */
  function Reorder(careers: seq<Career>, cat: string, reordered: seq<Tagged<Career>>): seq<Career> {
    Regroup(careers, InCategory(cat), reordered)
  }

  /**
   * A tab lists exactly the careers of its category: each under its own index, in the
   * order of the whole list, as many as its title counts.
   */
  lemma TabListsCategory(careers: seq<Career>, cat: string, j: nat)
    requires j < |careers|
    ensures forall k :: 0 <= k < |Filtered(careers, InCategory(cat))| ==>
              var t := Filtered(careers, InCategory(cat))[k];
              t.originalIndex < |careers| && careers[t.originalIndex] == t.item && t.item.category == cat
    ensures forall a, b :: 0 <= a < b < |Filtered(careers, InCategory(cat))| ==>
              Filtered(careers, InCategory(cat))[a].originalIndex < Filtered(careers, InCategory(cat))[b].originalIndex
    ensures (exists k :: 0 <= k < |Filtered(careers, InCategory(cat))| &&
                         Filtered(careers, InCategory(cat))[k].originalIndex == j) <==> careers[j].category == cat
    ensures TabCount(careers, cat) == |Filtered(careers, InCategory(cat))|
  {
    FilteredIndices(careers, InCategory(cat));
    ListedIff(careers, InCategory(cat), j);
    FilteredStrip(careers, InCategory(cat));
  }

  /**
   * Reordering a tab with a permutation of its careers permutes the whole list, leaves
   * every tab's count as it was, keeps the other careers in their order and shows the
   * tab in its new order.
   */
  lemma ReorderPermutes(careers: seq<Career>, cat: string, reordered: seq<Tagged<Career>>)
    requires multiset(Strip(reordered)) == multiset(Strip(Filtered(careers, InCategory(cat))))
    ensures multiset(Reorder(careers, cat, reordered)) == multiset(careers)
    ensures forall k :: TabCount(Reorder(careers, cat, reordered), k) == TabCount(careers, k)
    ensures Filter(Reorder(careers, cat, reordered), Not(InCategory(cat))) == Filter(careers, Not(InCategory(cat)))
    ensures Filter(Reorder(careers, cat, reordered), InCategory(cat)) == Strip(reordered)
  {
    RegroupPermutes(careers, InCategory(cat), reordered);
    var r := Reorder(careers, cat, reordered);
    forall k ensures TabCount(r, k) == TabCount(careers, k) {
      assert |multiset(Filter(r, InCategory(k)))| == |multiset(Filter(careers, InCategory(k)))|;
    }
    FilteredStrip(careers, InCategory(cat));
    FilterSatisfies(careers, InCategory(cat));
    var kept := Filter(careers, InCategory(cat));
    forall k | 0 <= k < |reordered| ensures InCategory(cat)(reordered[k].item) {
      assert Strip(reordered)[k] in multiset(Strip(reordered));
      assert reordered[k].item in kept;
      var m :| 0 <= m < |kept| && kept[m] == reordered[k].item;
    }
    RegroupKeepsGroups(careers, InCategory(cat), reordered);
  }

  /** A drag inside a tab permutes the careers and keeps every tab's count. */
  lemma DragKeepsCounts(careers: seq<Career>, cat: string, source: nat, destination: nat)
    requires source < |Filtered(careers, InCategory(cat))| && destination < |Filtered(careers, InCategory(cat))|
    ensures var r := Reorder(careers, cat, Move(Filtered(careers, InCategory(cat)), source, destination));
            multiset(r) == multiset(careers) && forall k :: TabCount(r, k) == TabCount(careers, k)
  {
    var f := Filtered(careers, InCategory(cat));
    StripMove(f, source, destination);
    MovePermutes(Strip(f), source, destination);
    ReorderPermutes(careers, cat, Move(f, source, destination));
  }

  /** An add button puts a blank career of its tab at the end of that tab and of the list. */
  lemma AddShowsInTab(careers: seq<Career>, cat: string)
    ensures Filter(careers + [BlankCareer(cat)], InCategory(cat)) == Filter(careers, InCategory(cat)) + [BlankCareer(cat)]
    ensures forall k :: k != cat ==> TabCount(careers + [BlankCareer(cat)], k) == TabCount(careers, k)
  {
    FilterAppend(careers, [BlankCareer(cat)], InCategory(cat));
    FilterSingleton(BlankCareer(cat), InCategory(cat));
    forall k | k != cat ensures TabCount(careers + [BlankCareer(cat)], k) == TabCount(careers, k) {
      FilterAppend(careers, [BlankCareer(cat)], InCategory(k));
      FilterSingleton(BlankCareer(cat), InCategory(k));
    }
  }

  /** Removing a career lowers the count of its own tab by one and leaves the others. */
  lemma RemoveCounts(careers: seq<Career>, i: nat, k: string)
    requires i < |careers|
    ensures TabCount(RemoveAt(careers, i), k) == TabCount(careers, k) - (if careers[i].category == k then 1 else 0)
  {
    FilterAround(careers, i, InCategory(k));
    FilterSingleton(careers[i], InCategory(k));
  }

  /** The editor: its handlers write the parent's `careers` cell through `setCareers`. */
  class Editor {
    const careers: State<seq<Career>>

    constructor(cell: State<seq<Career>>)
      ensures careers == cell
    {
      careers := cell;
    }

    /** `updateItem(originalIndex, { [f]: v })`. */
    method UpdateItem(originalIndex: nat, f: CareerField, v: string)
      requires originalIndex < |careers.value|
      modifies careers
      ensures careers.value == old(careers.value)[originalIndex := CareerSet(old(careers.value)[originalIndex], f, v)]
    {
      careers.Set(careers.value[originalIndex := CareerSet(careers.value[originalIndex], f, v)]);
    }

    /** `removeItem(originalIndex)`. */
    method RemoveItem(originalIndex: nat)
      modifies careers
      ensures careers.value == RemoveAt(old(careers.value), originalIndex)
    {
      careers.Set(RemoveAt(careers.value, originalIndex));
    }

    /** `newLinks[li][f] = v` on a copy of the links, then `updateItem(i, { links: newLinks })`. */
    method EditLink(i: nat, li: nat, f: LinkField, v: string)
      requires i < |careers.value| && li < |careers.value[i].links|
      modifies careers
      ensures careers.value == EditCareerLink(old(careers.value), i, li, f, v)
    {
      var newLinks := careers.value[i].links;
      newLinks := newLinks[li := CareerLinkSet(newLinks[li], f, v)];
      careers.Set(careers.value[i := careers.value[i].(links := newLinks)]);
    }

    method RemoveLink(i: nat, li: nat)
      requires i < |careers.value|
      modifies careers
      ensures careers.value == RemoveCareerLink(old(careers.value), i, li)
    {
      careers.Set(careers.value[i := careers.value[i].(links := RemoveAt(careers.value[i].links, li))]);
    }

    method AddLink(i: nat)
      requires i < |careers.value|
      modifies careers
      ensures careers.value == AddCareerLink(old(careers.value), i)
    {
      careers.Set(careers.value[i := careers.value[i].(links := careers.value[i].links + [BlankCareerLink])]);
    }

    /** The "+ 첫 항목 추가하기" button of an empty tab and the add button under each tab. */
    method AddItem(cat: string)
      requires cat == DramaFilm || cat == BrandEditorial
      modifies careers
      ensures careers.value == old(careers.value) + [BlankCareer(cat)]
    {
      careers.Set(careers.value + [BlankCareer(cat)]);
    }

    /** `onReorder` of a tab's sortable list. */
    method OnReorder(cat: string, reordered: seq<Tagged<Career>>)
      modifies careers
      ensures careers.value == Reorder(old(careers.value), cat, reordered)
    {
      careers.Set(Filter(careers.value, Not(InCategory(cat))) + Strip(reordered));
    }
  }
}
