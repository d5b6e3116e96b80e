/**
 * The single-list editorial editor: a sortable list of editorials, each with year and
 * magazine inputs and its media entries, which may be missing.
 */
module AdminEditorialSection {
  import opened Wrappers
  import opened Lists
  import opened Entities
  import opened ReactState

  /** An editorial as this editor holds it: `media` may be missing (`ed.media?.map`). */
  datatype Item = Item(year_label: string, media_name: string, media: Option<seq<EditorialMedia>>)

  const BlankItem := Item("", "", Some([]))

  /** `n[i].media[mi] := m'`: only entry `mi` of editorial `i` changes. */
  function EditMediaAt(items: seq<Item>, i: nat, mi: nat, m: EditorialMedia): (r: seq<Item>)
    requires i < |items| && items[i].media.Some? && mi < |items[i].media.value|
    ensures |r| == |items| && forall j :: 0 <= j < |r| && j != i ==> r[j] == items[j]
    ensures r[i].year_label == items[i].year_label && r[i].media_name == items[i].media_name
    ensures r[i].media.Some? && |r[i].media.value| == |items[i].media.value|
    ensures forall k :: 0 <= k < |r[i].media.value| && k != mi ==> r[i].media.value[k] == items[i].media.value[k]
    ensures r[i].media.value[mi] == m
  {
    items[i := items[i].(media := Some(items[i].media.value[mi := m]))]
  }

  /** "+ 미디어 추가": a blank image entry after the media, missing media counting as none. */
  function AddMediaAt(items: seq<Item>, i: nat): (r: seq<Item>)
    requires i < |items|
    ensures |r| == |items| && forall j :: 0 <= j < |r| && j != i ==> r[j] == items[j]
    ensures r[i] == items[i].(media := r[i].media) && r[i].media.Some?
    ensures items[i].media.Some? ==> r[i].media.value == items[i].media.value + [BlankMedia]
    ensures items[i].media.None? ==> r[i].media.value == [BlankMedia]
  {
    items[i := items[i].(media := Some(items[i].media.GetOr([]) + [BlankMedia]))]
  }

  /** Editing a media entry and writing its old value back restores the list. */
  lemma EditMediaUndo(items: seq<Item>, i: nat, mi: nat, m: EditorialMedia)
    requires i < |items| && items[i].media.Some? && mi < |items[i].media.value|
    ensures EditMediaAt(EditMediaAt(items, i, mi, m), i, mi, items[i].media.value[mi]) == items
  {
    var b := EditMediaAt(EditMediaAt(items, i, mi, m), i, mi, items[i].media.value[mi]);
    assert b[i].media.value == items[i].media.value;
    assert b[i] == items[i];
  }

  class Editor {
    const editorials: State<seq<Item>>

    constructor(cell: State<seq<Item>>)
      ensures editorials == cell
    {
      editorials := cell;
    }

    /** `n[i].year_label = v`. */
    method EditYear(i: nat, v: string)
      requires i < |editorials.value|
      modifies editorials
      ensures editorials.value == old(editorials.value)[i := old(editorials.value)[i].(year_label := v)]
    {
      var n := editorials.value;
      n := n[i := n[i].(year_label := v)];
      editorials.Set(n);
    }

    /** `n[i].media_name = v`. */
    method EditMediaName(i: nat, v: string)
      requires i < |editorials.value|
      modifies editorials
      ensures editorials.value == old(editorials.value)[i := old(editorials.value)[i].(media_name := v)]
    {
      var n := editorials.value;
      n := n[i := n[i].(media_name := v)];
      editorials.Set(n);
    }

    method Remove(i: nat)
      modifies editorials
      ensures editorials.value == RemoveAt(old(editorials.value), i)
    {
      editorials.Set(RemoveAt(editorials.value, i));
    }

    /** The type select of a media entry, rendered only for present media. */
    method EditMediaType(i: nat, mi: nat, t: MediaType)
      requires i < |editorials.value| && editorials.value[i].media.Some? && mi < |editorials.value[i].media.value|
      modifies editorials
      ensures editorials.value ==
                EditMediaAt(old(editorials.value), i, mi, old(editorials.value)[i].media.value[mi].(media_type := t))
    {
      var n := editorials.value;
      var media := n[i].media.value;
      n := n[i := n[i].(media := Some(media[mi := media[mi].(media_type := t)]))];
      editorials.Set(n);
    }

    /** The URL input of a media entry. */
    method EditMediaUrl(i: nat, mi: nat, v: string)
      requires i < |editorials.value| && editorials.value[i].media.Some? && mi < |editorials.value[i].media.value|
      modifies editorials
      ensures editorials.value ==
                EditMediaAt(old(editorials.value), i, mi, old(editorials.value)[i].media.value[mi].(media_url := v))
    {
      var n := editorials.value;
      var media := n[i].media.value;
      n := n[i := n[i].(media := Some(media[mi := media[mi].(media_url := v)]))];
      editorials.Set(n);
    }

    method AddMedia(i: nat)
      requires i < |editorials.value|
      modifies editorials
      ensures editorials.value == AddMediaAt(old(editorials.value), i)
    {
      var n := editorials.value;
      n := n[i := n[i].(media := Some(n[i].media.GetOr([]) + [BlankMedia]))];
      editorials.Set(n);
    }

    /** "+ 화보 추가": a blank editorial with no media, at the end. */
    method Append()
      modifies editorials
      ensures editorials.value == old(editorials.value) + [BlankItem]
    {
      editorials.Set(editorials.value + [BlankItem]);
    }
  }
}
