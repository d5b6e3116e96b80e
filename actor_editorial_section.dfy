/**
 * The tabbed editorial editor: one tab per magazine, where the "other" tab also takes
 * the editorials without a category or with a category that is not a tab; edits act on
 * the editorial's index in the whole list, and dragging within a tab rebuilds the whole
 * list as the editorials outside the tab followed by the tab's in their new order.
 */
module ActorEditorialSection {
  import opened Wrappers
  import opened Lists
  import opened Text
  import opened Entities
  import opened ReactState
  import opened DraggableList
  import opened TaggedLists

  /** The tab ids, in tab order. */
  const MagazineIds: seq<string> := ["vogue", "elle", "w", "bazaar", "gq", "other"]
  const OtherId := "other"

  /** An editorial as this editor holds it: the category and the media may be missing. */
  datatype Entry = Entry(
    year_label: string,
    media_name: string,
    category: Option<string>,
    editorial_media: Option<seq<EditorialMedia>>)

  /** A category that is set but names no tab. */
  predicate Unrecognised(e: Entry) {
    Present(e.category) && e.category.value !in MagazineIds
  }

  /** The filter of `renderEditorialList(key)`. */
  function InTab(key: string): Entry -> bool {
    (e: Entry) =>
      if key == OtherId then !Present(e.category) || e.category.value == OtherId || e.category.value !in MagazineIds
      else e.category == Some(key)
  }

  /** The filter of the count in a tab's title. */
  function CountedIn(key: string): Entry -> bool {
    (e: Entry) =>
      if key == OtherId then !Present(e.category) || e.category.value == OtherId
      else e.category == Some(key)
  }

  /** The tab an editorial is listed in. */
  function TabOf(e: Entry): (key: string)
    ensures key in MagazineIds
    ensures key != OtherId ==> e.category == Some(key)
  {
    if Present(e.category) && e.category.value in MagazineIds then e.category.value else OtherId
  }

  /** Every editorial is listed in exactly one tab: the one `TabOf` names. */
  lemma ExactlyOneTab(e: Entry, key: string)
    requires key in MagazineIds
    ensures InTab(key)(e) <==> key == TabOf(e)
  {
  }

  function TabCount(eds: seq<Entry>, key: string): nat {
    |Filter(eds, CountedIn(key))|
  }

  /**
   * A magazine tab's title counts the editorials it lists; the "other" tab's title
   * counts only those without a category or marked "other", so it falls short of its
   * list exactly when some editorial has an unrecognised category.
   */
  lemma TabCountVersusList(eds: seq<Entry>, key: string)
    requires key in MagazineIds
    ensures key != OtherId ==> TabCount(eds, key) == |Filtered(eds, InTab(key))|
    ensures TabCount(eds, key) <= |Filtered(eds, InTab(key))|
    ensures key == OtherId ==>
              (TabCount(eds, key) == |Filtered(eds, InTab(key))| <==>
               forall k :: 0 <= k < |eds| ==> !Unrecognised(eds[k]))
  {
    FilteredStrip(eds, InTab(key));
    if key != OtherId {
      FilterCongruent(eds, CountedIn(key), InTab(key));
    }
    FilterStrongerCount(eds, InTab(key), CountedIn(key));
    if key == OtherId {
      assert forall k :: 0 <= k < |eds| ==> (InTab(key)(eds[k]) && !CountedIn(key)(eds[k]) <==> Unrecognised(eds[k]));
    }
  }

  /** The "other" tab falls short on a list holding one editorial of an unknown magazine. */
  lemma OtherCountFallsShort()
    ensures var eds := [Entry("", "", Some("harper"), Some([]))];
            TabCount(eds, OtherId) == 0 && |Filtered(eds, InTab(OtherId))| == 1
  {
    var eds := [Entry("", "", Some("harper"), Some([]))];
    TabCountVersusList(eds, OtherId);
    assert Unrecognised(eds[0]);
    assert eds[..0] == [];
    assert Filter(eds, CountedIn(OtherId)) == Filter(eds[..0], CountedIn(OtherId));
  }

  /** `filtered.find(f => f.originalIndex === idx)` fails: position `idx` is not in the tab. */
  function NotListed(filtered: seq<Tagged<Entry>>): Tagged<Entry> -> bool {
    (t: Tagged<Entry>) => !(exists k :: 0 <= k < |filtered| && filtered[k].originalIndex == t.originalIndex)
  }

  /** `onReorder`: the editorials whose position is not in the tab, then the reordered ones untagged. */
  function Reorder(eds: seq<Entry>, key: string, reordered: seq<Tagged<Entry>>): seq<Entry> {
    Strip(Filter(WithIndex(eds), NotListed(Filtered(eds, InTab(key))))) + Strip(reordered)
  }

  /**
   * Dropping the positions listed in the tab is dropping the editorials the tab's
   * filter takes, so a reorder keeps the editorials outside the tab in their order.
   */
  lemma ReorderRegroups(eds: seq<Entry>, key: string, reordered: seq<Tagged<Entry>>)
    ensures Reorder(eds, key, reordered) == Regroup(eds, InTab(key), reordered)
  {
    var p := InTab(key);
    var tagged := WithIndex(eds);
    forall k | 0 <= k < |tagged| ensures NotListed(Filtered(eds, p))(tagged[k]) == OnItem(Not(p))(tagged[k]) {
      ListedIff(eds, p, k);
    }
    FilterCongruent(tagged, NotListed(Filtered(eds, p)), OnItem(Not(p)));
    FilteredStrip(eds, Not(p));
  }

  /** A drag inside a tab permutes the whole list and every tab's list. */
  lemma DragPermutes(eds: seq<Entry>, key: string, source: nat, destination: nat)
    requires source < |Filtered(eds, InTab(key))| && destination < |Filtered(eds, InTab(key))|
    ensures var r := Reorder(eds, key, Move(Filtered(eds, InTab(key)), source, destination));
            multiset(r) == multiset(eds) &&
            forall k :: multiset(Filter(r, InTab(k))) == multiset(Filter(eds, InTab(k)))
  {
    var moved := Move(Filtered(eds, InTab(key)), source, destination);
    ReorderRegroups(eds, key, moved);
    StripMove(Filtered(eds, InTab(key)), source, destination);
    MovePermutes(Strip(Filtered(eds, InTab(key))), source, destination);
    RegroupPermutes(eds, InTab(key), moved);
  }

  /** The blank editorial the add button of tab `key` appends. */
  function NewEntry(key: string): Entry {
    Entry("", "", Some(key), Some([]))
  }

  /** The appended editorial lands at the end of its own tab and of no other. */
  lemma NewEntryInItsTab(eds: seq<Entry>, key: string, other: string)
    requires key in MagazineIds && other in MagazineIds
    ensures TabOf(NewEntry(key)) == key
    ensures Filtered(eds + [NewEntry(key)], InTab(key)) ==
              Filtered(eds, InTab(key)) + [Tagged(NewEntry(key), |eds|)]
    ensures other != key ==> Filtered(eds + [NewEntry(key)], InTab(other)) == Filtered(eds, InTab(other))
  {
    FilteredSnoc(eds, NewEntry(key), InTab(key));
    FilteredSnoc(eds, NewEntry(key), InTab(other));
    ExactlyOneTab(NewEntry(key), key);
    ExactlyOneTab(NewEntry(key), other);
  }

  // ---- the edits ----

  datatype EntryField = EntryYearLabel | EntryMediaName | EntryCategory

  /** `updateEditorial(i, { [f]: v })`; the category select sets the category to the chosen id. */
  function EntrySet(e: Entry, f: EntryField, v: string): (r: Entry)
    ensures f == EntryYearLabel ==> r == e.(year_label := v)
    ensures f == EntryMediaName ==> r == e.(media_name := v)
    ensures f == EntryCategory ==> r == e.(category := Some(v))
  {
    match f
    case EntryYearLabel => e.(year_label := v)
    case EntryMediaName => e.(media_name := v)
    case EntryCategory => e.(category := Some(v))
  }

  /** Choosing a tab's id in the select moves the editorial to that tab. */
  lemma CategorySelectMoves(e: Entry, key: string)
    requires key in MagazineIds
    ensures TabOf(EntrySet(e, EntryCategory, key)) == key
  {
  }

  /** `addMedia(i)`: a blank image entry after the editorial's media, missing media counting as none. */
  function AddMediaAt(eds: seq<Entry>, i: nat): (r: seq<Entry>)
    requires i < |eds|
    ensures |r| == |eds| && forall j :: 0 <= j < |r| && j != i ==> r[j] == eds[j]
    ensures r[i] == eds[i].(editorial_media := Some(eds[i].editorial_media.GetOr([]) + [BlankMedia]))
  {
    eds[i := eds[i].(editorial_media := Some(eds[i].editorial_media.GetOr([]) + [BlankMedia]))]
  }

  /** `updateMedia(i, mi, …)`: only entry `mi` of editorial `i` changes. */
  function UpdateMediaAt(eds: seq<Entry>, i: nat, mi: nat, m: EditorialMedia): (r: seq<Entry>)
    requires i < |eds| && eds[i].editorial_media.Some? && mi < |eds[i].editorial_media.value|
    ensures |r| == |eds| && forall j :: 0 <= j < |r| && j != i ==> r[j] == eds[j]
    ensures r[i].year_label == eds[i].year_label && r[i].media_name == eds[i].media_name
    ensures r[i].category == eds[i].category && r[i].editorial_media.Some?
    ensures |r[i].editorial_media.value| == |eds[i].editorial_media.value|
    ensures forall k :: 0 <= k < |r[i].editorial_media.value| && k != mi ==>
              r[i].editorial_media.value[k] == eds[i].editorial_media.value[k]
    ensures r[i].editorial_media.value[mi] == m
  {
    eds[i := eds[i].(editorial_media := Some(eds[i].editorial_media.value[mi := m]))]
  }

  /** The ✕ of a media entry: `splice(mi, 1)` on a copy, written back with `updateEditorial`. */
  function RemoveMediaAt(eds: seq<Entry>, i: nat, mi: nat): (r: seq<Entry>)
    requires i < |eds| && eds[i].editorial_media.Some?
    ensures |r| == |eds| && forall j :: 0 <= j < |r| && j != i ==> r[j] == eds[j]
    ensures r[i] == eds[i].(editorial_media := Some(RemoveAt(eds[i].editorial_media.value, mi)))
  {
    eds[i := eds[i].(editorial_media := Some(RemoveAt(eds[i].editorial_media.value, mi)))]
  }

  /** Adding a media entry and removing the added one restores an editorial that had media. */
  lemma AddThenRemoveMedia(eds: seq<Entry>, i: nat)
    requires i < |eds| && eds[i].editorial_media.Some?
    ensures RemoveMediaAt(AddMediaAt(eds, i), i, |eds[i].editorial_media.value|) == eds
  {
    RemoveAppended(eds[i].editorial_media.value, BlankMedia);
    assert AddMediaAt(eds, i)[i].editorial_media.value == eds[i].editorial_media.value + [BlankMedia];
  }

  /** Writing a media entry's old value back undoes an edit. */
  lemma UpdateMediaUndo(eds: seq<Entry>, i: nat, mi: nat, m: EditorialMedia)
    requires i < |eds| && eds[i].editorial_media.Some? && mi < |eds[i].editorial_media.value|
    ensures UpdateMediaAt(UpdateMediaAt(eds, i, mi, m), i, mi, eds[i].editorial_media.value[mi]) == eds
  {
    var r := UpdateMediaAt(eds, i, mi, m);
    var b := UpdateMediaAt(r, i, mi, eds[i].editorial_media.value[mi]);
    assert b[i].editorial_media.value == eds[i].editorial_media.value;
    assert b[i] == eds[i];
  }

  /** The editor: its handlers write the parent's `editorials` cell through `setEditorials`. */
  class Editor {
    const editorials: State<seq<Entry>>

    constructor(cell: State<seq<Entry>>)
      ensures editorials == cell
    {
      editorials := cell;
    }

    method UpdateEditorial(i: nat, f: EntryField, v: string)
      requires i < |editorials.value|
      modifies editorials
      ensures editorials.value == old(editorials.value)[i := EntrySet(old(editorials.value)[i], f, v)]
    {
      editorials.Set(editorials.value[i := EntrySet(editorials.value[i], f, v)]);
    }

    method Remove(i: nat)
      modifies editorials
      ensures editorials.value == RemoveAt(old(editorials.value), i)
    {
      editorials.Set(RemoveAt(editorials.value, i));
    }

    method AddMedia(i: nat)
      requires i < |editorials.value|
      modifies editorials
      ensures editorials.value == AddMediaAt(old(editorials.value), i)
    {
      var currentMedia := editorials.value[i].editorial_media.GetOr([]);
      editorials.Set(editorials.value[i := editorials.value[i].(editorial_media := Some(currentMedia + [BlankMedia]))]);
    }

    /** The IMG/VIDEO select of a media entry. */
    method UpdateMediaType(i: nat, mi: nat, t: MediaType)
      requires i < |editorials.value| && editorials.value[i].editorial_media.Some?
      requires mi < |editorials.value[i].editorial_media.value|
      modifies editorials
      ensures editorials.value ==
                UpdateMediaAt(old(editorials.value), i, mi, old(editorials.value)[i].editorial_media.value[mi].(media_type := t))
    {
      var m := editorials.value[i].editorial_media.value[mi];
      editorials.Set(UpdateMediaAt(editorials.value, i, mi, m.(media_type := t)));
    }

    /** The URL input of a media entry. */
    method UpdateMediaUrl(i: nat, mi: nat, v: string)
      requires i < |editorials.value| && editorials.value[i].editorial_media.Some?
      requires mi < |editorials.value[i].editorial_media.value|
      modifies editorials
      ensures editorials.value ==
                UpdateMediaAt(old(editorials.value), i, mi, old(editorials.value)[i].editorial_media.value[mi].(media_url := v))
    {
      var m := editorials.value[i].editorial_media.value[mi];
      editorials.Set(UpdateMediaAt(editorials.value, i, mi, m.(media_url := v)));
    }

    method RemoveMedia(i: nat, mi: nat)
      requires i < |editorials.value| && editorials.value[i].editorial_media.Some?
      modifies editorials
      ensures editorials.value == RemoveMediaAt(old(editorials.value), i, mi)
    {
      var n := RemoveAt(editorials.value[i].editorial_media.value, mi);
      editorials.Set(editorials.value[i := editorials.value[i].(editorial_media := Some(n))]);
    }

    /** "+ 새로운 … 화보 추가" under tab `key`. */
    method AddEntry(key: string)
      requires key in MagazineIds
      modifies editorials
      ensures editorials.value == old(editorials.value) + [NewEntry(key)]
    {
      editorials.Set(editorials.value + [NewEntry(key)]);
    }

    method OnReorder(key: string, reordered: seq<Tagged<Entry>>)
      modifies editorials
      ensures editorials.value == Reorder(old(editorials.value), key, reordered)
    {
      var filtered := Filtered(editorials.value, InTab(key));
      var others := Strip(Filter(WithIndex(editorials.value), NotListed(filtered)));
      editorials.Set(others + Strip(reordered));
    }
  }
}
