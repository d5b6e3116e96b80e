/**
 * The visual-archive editor: a sortable list of archive items, each with a category
 * select, name and year inputs, and its YouTube links, which may be missing.
 */
module VisualArchiveSection {
  import opened Wrappers
  import opened Lists
  import opened Entities
  import opened ReactState

  /** An archive item as this editor holds it: `links` may be missing (`v.links?.map`). */
  datatype ArchiveItem = ArchiveItem(category: string, project_name: string, year_label: string, links: Option<seq<VideoLink>>)

  const BlankItem := ArchiveItem("drama_film", "", "", Some([]))

  datatype ItemField = ItemCategory | ItemProjectName | ItemYearLabel

  /** `n[i][f] = v`. */
  function ItemSet(x: ArchiveItem, f: ItemField, v: string): (r: ArchiveItem)
    ensures f == ItemCategory ==> r == x.(category := v)
    ensures f == ItemProjectName ==> r == x.(project_name := v)
    ensures f == ItemYearLabel ==> r == x.(year_label := v)
  {
    match f
    case ItemCategory => x.(category := v)
    case ItemProjectName => x.(project_name := v)
    case ItemYearLabel => x.(year_label := v)
  }

  /** `n[i].links[li][f] = v`: only link `li` of item `i` changes. */
  function EditLink(items: seq<ArchiveItem>, i: nat, li: nat, f: LinkField, v: string): (r: seq<ArchiveItem>)
    requires i < |items| && items[i].links.Some? && li < |items[i].links.value|
    ensures |r| == |items| && forall j :: 0 <= j < |r| && j != i ==> r[j] == items[j]
    ensures r[i].category == items[i].category && r[i].project_name == items[i].project_name
    ensures r[i].year_label == items[i].year_label && r[i].links.Some?
    ensures |r[i].links.value| == |items[i].links.value|
    ensures forall k :: 0 <= k < |r[i].links.value| && k != li ==> r[i].links.value[k] == items[i].links.value[k]
    ensures r[i].links.value[li] == VideoLinkSet(items[i].links.value[li], f, v)
  {
    var links := items[i].links.value;
    items[i := items[i].(links := Some(links[li := VideoLinkSet(links[li], f, v)]))]
  }

  /** "+ 영상 링크 추가": a blank link after the item's links, missing links counting as none. */
  function AddLink(items: seq<ArchiveItem>, i: nat): (r: seq<ArchiveItem>)
    requires i < |items|
    ensures |r| == |items| && forall j :: 0 <= j < |r| && j != i ==> r[j] == items[j]
    ensures r[i] == items[i].(links := r[i].links) && r[i].links.Some?
    ensures items[i].links.Some? ==> r[i].links.value == items[i].links.value + [BlankVideoLink]
    ensures items[i].links.None? ==> r[i].links.value == [BlankVideoLink]
  {
    items[i := items[i].(links := Some(items[i].links.GetOr([]) + [BlankVideoLink]))]
  }

  /** Adding a link to an item and then writing its label edits only the new link. */
  lemma AddThenEditNewLink(items: seq<ArchiveItem>, i: nat, v: string)
    requires i < |items|
    ensures var added := AddLink(items, i);
            var n := |added[i].links.value| - 1;
            var r := EditLink(added, i, n, LinkLabel, v);
            r[i].links.value == items[i].links.GetOr([]) + [VideoLink("", v)]
  {
    var added := AddLink(items, i);
    var n := |added[i].links.value| - 1;
    var r := EditLink(added, i, n, LinkLabel, v);
    assert r[i].links.value == (items[i].links.GetOr([]) + [BlankVideoLink])[n := VideoLink("", v)];
  }

  class Editor {
    const videos: State<seq<ArchiveItem>>

    constructor(cell: State<seq<ArchiveItem>>)
      ensures videos == cell
    {
      videos := cell;
    }

    /** The category select and the name and year inputs. */
    method EditItem(i: nat, f: ItemField, v: string)
      requires i < |videos.value|
      modifies videos
      ensures videos.value == old(videos.value)[i := ItemSet(old(videos.value)[i], f, v)]
    {
      var n := videos.value;
      n := n[i := ItemSet(n[i], f, v)];
      videos.Set(n);
    }

    method Remove(i: nat)
      modifies videos
      ensures videos.value == RemoveAt(old(videos.value), i)
    {
      videos.Set(RemoveAt(videos.value, i));
    }

    /** The label and URL inputs of a link, rendered only for present links. */
    method EditLinkField(i: nat, li: nat, f: LinkField, v: string)
      requires i < |videos.value| && videos.value[i].links.Some? && li < |videos.value[i].links.value|
      modifies videos
      ensures videos.value == EditLink(old(videos.value), i, li, f, v)
    {
      var n := videos.value;
      var links := n[i].links.value;
      n := n[i := n[i].(links := Some(links[li := VideoLinkSet(links[li], f, v)]))];
      videos.Set(n);
    }

    method AddLinkTo(i: nat)
      requires i < |videos.value|
      modifies videos
      ensures videos.value == AddLink(old(videos.value), i)
    {
      var n := videos.value;
      n := n[i := n[i].(links := Some(n[i].links.GetOr([]) + [BlankVideoLink]))];
      videos.Set(n);
    }

    /** "+ 아카이브 항목 추가": a blank drama/film item with no links, at the end. */
    method Append()
      modifies videos
      ensures videos.value == old(videos.value) + [BlankItem]
    {
      videos.Set(videos.value + [BlankItem]);
    }
  }
}
