/**
 * The visual archive on an actor's profile: videos are grouped by category, the six
 * standard categories first in their fixed order (and only when they have videos), then
 * every other category in order of its first video; each group keeps the input order.
 * Clicking a link opens the player only when a YouTube id can be read from its URL.
 */
module VideoSection {
  import opened Wrappers
  import opened Lists
  import opened Entities
  import YouTube

  const CategoryOrder: seq<string> := ["drama_film", "advertising", "magazine", "event_diary", "music_video", "awards_other"]

  /** `CATEGORY_LABELS[cat]`: the heading of a standard category, nothing for any other key. */
  function CategoryLabel(cat: string): (lbl: Option<string>)
    ensures lbl.Some? <==> cat in CategoryOrder
    ensures lbl.Some? ==> lbl.value != "" && lbl.value != cat
  {
    if cat == "drama_film" then Some("1. Drama & Film")
    else if cat == "advertising" then Some("2. Advertising")
    else if cat == "magazine" then Some("3. Magazine")
    else if cat == "event_diary" then Some("4. Event & Diary")
    else if cat == "music_video" then Some("5. Music Video")
    else if cat == "awards_other" then Some("6. Awards & Other")
    else None
  }

  /** `CATEGORY_LABELS[cat] || cat`: a group's heading is its raw key exactly when the key is not standard. */
  function Heading(cat: string): (h: string)
    ensures h == cat <==> cat !in CategoryOrder
    ensures cat in CategoryOrder ==> h == CategoryLabel(cat).value
  {
    var lbl := CategoryLabel(cat);
    if lbl.Some? && lbl.value != "" then lbl.value else cat
  }

  /** `link.link_label || '영상 보기'`. */
  function LinkLabel(link: VideoLink): (lbl: string)
    ensures lbl != ""
    ensures link.link_label != "" ==> lbl == link.link_label
  {
    if link.link_label != "" then link.link_label else "영상 보기"
  }

  /** One entry of `grouped`: a category key and the videos pushed under it. */
  datatype Group = Group(key: string, items: seq<Video>)

  function Keys(groups: seq<Group>): (keys: seq<string>)
    ensures |keys| == |groups| && forall i :: 0 <= i < |groups| ==> keys[i] == groups[i].key
  {
    seq(|groups|, i requires 0 <= i < |groups| => groups[i].key)
  }

  /** `v.category === cat`. */
  function OfCategory(cat: string): Video -> bool {
    (v: Video) => v.category == cat
  }

  /** `videos.filter(v => v.category === cat)`. */
  function ItemsOf(videos: seq<Video>, cat: string): (r: seq<Video>)
    ensures |r| <= |videos|
  {
    Filter(videos, OfCategory(cat))
  }

  /** A video is in the filter of `cat` exactly when it is one of the videos and has category `cat`. */
  lemma ItemsOfMember(videos: seq<Video>, cat: string, v: Video)
    ensures v in ItemsOf(videos, cat) <==> v in videos && v.category == cat
  {
    FilterMember(videos, OfCategory(cat), v);
  }

  /** Filtering keeps the input order: the matches of a prefix precede those of what follows it. */
  lemma ItemsOfAppend(a: seq<Video>, b: seq<Video>, cat: string)
    ensures ItemsOf(a + b, cat) == ItemsOf(a, cat) + ItemsOf(b, cat)
  {
    FilterAppend(a, b, OfCategory(cat));
  }

  /** A filter of a video that matches is that video; of one that does not, nothing. */
  lemma ItemsOfSingleton(v: Video, cat: string)
    ensures ItemsOf([v], cat) == if v.category == cat then [v] else []
  {
    FilterSingleton(v, OfCategory(cat));
  }

  /**
   * The `reduce` over `order`: for each category in turn, its filter is added when it is
   * not empty.
   */
  function KnownGroups(videos: seq<Video>, order: seq<string>): seq<Group>
  {
    if order == [] then []
    else
      var items := ItemsOf(videos, order[0]);
      (if |items| > 0 then [Group(order[0], items)] else []) + KnownGroups(videos, order[1..])
  }

  /** Position of `c` in `order` (|order| when it is absent). */
  function Pos(order: seq<string>, c: string): nat {
    if order == [] then 0 else if order[0] == c then 0 else 1 + Pos(order[1..], c)
  }

  /** The tail of a list without repetitions has none either, and does not hold its head. */
  lemma DistinctTail(order: seq<string>)
    requires Distinct(order) && order != []
    ensures Distinct(order[1..]) && order[0] !in order[1..]
  {
    var rest := order[1..];
    forall i, j | 0 <= i < j < |rest| ensures rest[i] != rest[j] {
      assert rest[i] == order[i + 1] && rest[j] == order[j + 1];
    }
    forall k | 0 <= k < |rest| ensures rest[k] != order[0] {
      assert rest[k] == order[k + 1];
    }
  }

  /** Each group the `reduce` builds is a category of `order` with its whole, non-empty filter. */
  lemma {:induction false} KnownGroupsItems(videos: seq<Video>, order: seq<string>, i: nat)
    requires i < |KnownGroups(videos, order)|
    ensures var g := KnownGroups(videos, order)[i];
            g.key in order && g.items == ItemsOf(videos, g.key) && g.items != []
  {
    var items := ItemsOf(videos, order[0]);
    var head := if |items| > 0 then [Group(order[0], items)] else [];
    var tail := KnownGroups(videos, order[1..]);
    assert KnownGroups(videos, order) == head + tail;
    if i >= |head| {
      KnownGroupsItems(videos, order[1..], i - |head|);
      assert KnownGroups(videos, order)[i] == tail[i - |head|];
      assert order == [order[0]] + order[1..];
    }
  }

  /** Every category of `order` that has a video gets a group. */
  lemma {:induction false} KnownGroupsComplete(videos: seq<Video>, order: seq<string>, c: string)
    requires c in order && ItemsOf(videos, c) != []
    ensures c in Keys(KnownGroups(videos, order))
  {
    var items := ItemsOf(videos, order[0]);
    var head := if |items| > 0 then [Group(order[0], items)] else [];
    var tail := KnownGroups(videos, order[1..]);
    var kg := KnownGroups(videos, order);
    assert kg == head + tail;
    if c == order[0] {
      assert kg[0].key == c;
    } else {
      assert c in order[1..];
      KnownGroupsComplete(videos, order[1..], c);
      var k :| 0 <= k < |tail| && tail[k].key == c;
      assert kg[|head| + k].key == c;
    }
  }

  /** The groups the `reduce` builds follow `order`. */
  lemma {:induction false} KnownGroupsOrdered(videos: seq<Video>, order: seq<string>, i: nat, j: nat)
    requires Distinct(order)
    requires i < j < |KnownGroups(videos, order)|
    ensures Pos(order, KnownGroups(videos, order)[i].key) < Pos(order, KnownGroups(videos, order)[j].key)
  {
    var rest := order[1..];
    var items := ItemsOf(videos, order[0]);
    var n := if |items| > 0 then 1 else 0;
    var tail := KnownGroups(videos, rest);
    var kg := KnownGroups(videos, order);
    assert kg == (if |items| > 0 then [Group(order[0], items)] else []) + tail;
    DistinctTail(order);
    KnownGroupsItems(videos, rest, j - n);
    assert kg[j] == tail[j - n];
    if i < n {
      assert kg[i].key == order[0];
    } else {
      assert kg[i] == tail[i - n];
      KnownGroupsItems(videos, rest, i - n);
      KnownGroupsOrdered(videos, rest, i - n, j - n);
    }
  }

  /** The category of each video, in input order. */
  function Categories(videos: seq<Video>): (cats: seq<string>)
    ensures |cats| == |videos| && forall k :: 0 <= k < |videos| ==> cats[k] == videos[k].category
  {
    seq(|videos|, k requires 0 <= k < |videos| => videos[k].category)
  }

  /** A category has a non-empty filter exactly when some video has it. */
  lemma {:induction false} ItemsOfNonEmpty(videos: seq<Video>, cat: string)
    ensures ItemsOf(videos, cat) != [] <==> cat in Categories(videos)
  {
    if videos != [] {
      var init := videos[..|videos| - 1];
      var last := videos[|videos| - 1];
      assert videos == init + [last];
      assert Categories(videos) == Categories(init) + [last.category];
      ItemsOfNonEmpty(init, cat);
    }
  }

  /** The categories of the videos outside `CategoryOrder`, one per such video, in input order. */
  function UnknownCategories(videos: seq<Video>): seq<string>
  {
    if videos == [] then []
    else
      var init := videos[..|videos| - 1];
      var last := videos[|videos| - 1];
      UnknownCategories(init) + (if last.category in CategoryOrder then [] else [last.category])
  }

  /** A category is listed exactly when it is not standard and some video has it. */
  lemma {:induction false} UnknownCategoriesMember(videos: seq<Video>, c: string)
    ensures c in UnknownCategories(videos) <==> c !in CategoryOrder && c in Categories(videos)
  {
    if videos != [] {
      var init := videos[..|videos| - 1];
      var last := videos[|videos| - 1];
      assert Categories(videos) == Categories(init) + [last.category];
      UnknownCategoriesMember(init, c);
    }
  }

  /** What the `forEach` adds after the `reduce`: one group per unknown category, in order of first appearance. */
  function UnknownGroups(videos: seq<Video>): (groups: seq<Group>)
    ensures Keys(groups) == Dedup(UnknownCategories(videos))
  {
    GroupsFor(videos, Dedup(UnknownCategories(videos)))
  }

  /** One group per key, holding the key's filter. */
  function GroupsFor(videos: seq<Video>, keys: seq<string>): (groups: seq<Group>)
    ensures |groups| == |keys|
    ensures forall k :: 0 <= k < |keys| ==> groups[k] == Group(keys[k], ItemsOf(videos, keys[k]))
  {
    seq(|keys|, k requires 0 <= k < |keys| => Group(keys[k], ItemsOf(videos, keys[k])))
  }

  lemma GroupsForSnocKey(videos: seq<Video>, keys: seq<string>, c: string)
    ensures GroupsFor(videos, keys + [c]) == GroupsFor(videos, keys) + [Group(c, ItemsOf(videos, c))]
  {
    var a := GroupsFor(videos, keys + [c]);
    var b := GroupsFor(videos, keys) + [Group(c, ItemsOf(videos, c))];
    assert |a| == |b|;
    forall m | 0 <= m < |a| ensures a[m] == b[m] {
      if m < |keys| {
        assert (keys + [c])[m] == keys[m];
      }
    }
  }

  /** A video whose category is none of the keys leaves their groups as they were. */
  lemma GroupsForSnocVideo(p: seq<Video>, v: Video, keys: seq<string>)
    requires v.category !in keys
    ensures GroupsFor(p + [v], keys) == GroupsFor(p, keys)
  {
    var a := GroupsFor(p + [v], keys);
    var b := GroupsFor(p, keys);
    forall m | 0 <= m < |keys| ensures a[m] == b[m] {
      ItemsOfSnoc(p, v, keys[m]);
    }
  }

  /** `grouped`, in `Object.keys` order: the standard groups, then the others. */
  function Grouping(videos: seq<Video>): seq<Group> {
    KnownGroups(videos, CategoryOrder) + UnknownGroups(videos)
  }

  lemma CategoryOrderDistinct()
    ensures Distinct(CategoryOrder)
  {
  }

  /** Walking one more video extends each filter by that video when it matches. */
  lemma ItemsOfSnoc(p: seq<Video>, v: Video, c: string)
    ensures ItemsOf(p + [v], c) == ItemsOf(p, c) + (if v.category == c then [v] else [])
  {
    assert (p + [v])[..|p|] == p;
  }

  /** The `forEach` step on a video of a standard category changes nothing. */
  lemma UnknownGroupsSkip(p: seq<Video>, v: Video)
    requires v.category in CategoryOrder
    ensures UnknownGroups(p + [v]) == UnknownGroups(p)
  {
    var q := p + [v];
    assert q[..|p|] == p;
    var uc := UnknownCategories(p);
    var d := Dedup(uc);
    assert UnknownCategories(q) == uc;
    var ug := UnknownGroups(p);
    var ug' := UnknownGroups(q);
    forall k | 0 <= k < |ug| ensures ug'[k] == ug[k] {
      assert d[k] in uc;
      UnknownCategoriesMember(p, d[k]);
      ItemsOfSnoc(p, v, d[k]);
    }
  }

  /** The `forEach` step on the first video of an unknown category appends its group. */
  lemma UnknownGroupsNew(p: seq<Video>, v: Video)
    requires v.category !in CategoryOrder && v.category !in UnknownCategories(p)
    ensures UnknownGroups(p + [v]) == UnknownGroups(p) + [Group(v.category, [v])]
  {
    var q := p + [v];
    assert q[..|p|] == p;
    var uc := UnknownCategories(p);
    var d := Dedup(uc);
    DedupSnoc(uc, v.category);
    assert UnknownCategories(q) == uc + [v.category];
    UnknownCategoriesMember(p, v.category);
    ItemsOfNonEmpty(p, v.category);
    ItemsOfSnoc(p, v, v.category);
    GroupsForSnocKey(q, d, v.category);
    GroupsForSnocVideo(p, v, d);
  }

  /** The `forEach` step on a later video of an unknown category pushes it onto that category's group. */
  lemma UnknownGroupsPush(p: seq<Video>, v: Video)
    requires v.category !in CategoryOrder && v.category in UnknownCategories(p)
    ensures var k := FirstIndex(Dedup(UnknownCategories(p)), v.category);
            UnknownGroups(p + [v]) == UnknownGroups(p)[k := Group(v.category, ItemsOf(p, v.category) + [v])]
  {
    var q := p + [v];
    assert q[..|p|] == p;
    var uc := UnknownCategories(p);
    var d := Dedup(uc);
    DedupSnoc(uc, v.category);
    assert UnknownCategories(q) == uc + [v.category];
    var k := FirstIndex(d, v.category);
    GroupsForSnocVideoAt(p, v, d, k);
  }

  /** A video whose category is the (distinct) key at `k` joins that group and no other. */
  lemma GroupsForSnocVideoAt(p: seq<Video>, v: Video, keys: seq<string>, k: nat)
    requires Distinct(keys) && k < |keys| && keys[k] == v.category
    ensures GroupsFor(p + [v], keys) == GroupsFor(p, keys)[k := Group(v.category, ItemsOf(p, v.category) + [v])]
  {
    var a := GroupsFor(p + [v], keys);
    var b := GroupsFor(p, keys)[k := Group(v.category, ItemsOf(p, v.category) + [v])];
    forall m | 0 <= m < |keys| ensures a[m] == b[m] {
      ItemsOfSnoc(p, v, keys[m]);
      if m != k {
        assert keys[m] != keys[k];
      }
    }
  }

  /** Position of the first group with the given key, as the `grouped[v.category]` lookup finds it. */
  function FindKey(groups: seq<Group>, key: string): (r: Option<nat>)
    ensures r.Some? ==> r.value < |groups| && groups[r.value].key == key
    ensures r.None? ==> key !in Keys(groups)
  {
    if groups == [] then None
    else if groups[0].key == key then Some(0)
    else
      var r := FindKey(groups[1..], key);
      assert r.None? ==> forall m :: 0 < m < |groups| ==> groups[m].key == groups[1..][m - 1].key;
      if r.None? then None else Some(r.value + 1)
  }

  /**
   * The `forEach` callback on one video: a video of an unknown category gets a fresh empty
   * group if none has its key yet, and is then pushed onto that group. `known` are the
   * groups of the `reduce`, whose keys are all standard.
   */
  method AddVideo(known: seq<Group>, groups: seq<Group>, p: seq<Video>, v: Video) returns (groups': seq<Group>)
    requires forall m :: 0 <= m < |known| ==> known[m].key in CategoryOrder
    requires groups == known + UnknownGroups(p)
    ensures groups' == known + UnknownGroups(p + [v])
  {
    groups' := groups;
    if v.category in CategoryOrder {
      UnknownGroupsSkip(p, v);
      return;
    }
    var found := FindKey(groups', v.category);
    if found.None? {
      AddVideoFresh(known, p, v);
      groups' := groups' + [Group(v.category, [])];
      found := Some(|groups'| - 1);
    } else {
      AddVideoExisting(known, p, v, found.value);
    }
    var j := found.value;
    groups' := groups'[j := Group(v.category, groups'[j].items + [v])];
  }

  /** A key the lookup does not find is an unknown category met for the first time. */
  lemma AddVideoFresh(known: seq<Group>, p: seq<Video>, v: Video)
    requires forall m :: 0 <= m < |known| ==> known[m].key in CategoryOrder
    requires v.category !in CategoryOrder && v.category !in Keys(known + UnknownGroups(p))
    ensures var groups := known + UnknownGroups(p) + [Group(v.category, [])];
            groups[|groups| - 1 := Group(v.category, [v])] == known + UnknownGroups(p + [v])
  {
    var d := Dedup(UnknownCategories(p));
    var groups := known + UnknownGroups(p);
    forall k | 0 <= k < |d| ensures d[k] != v.category {
      assert groups[|known| + k].key == d[k];
    }
    assert v.category !in d;
    UnknownGroupsNew(p, v);
    var g := groups + [Group(v.category, [])];
    assert g[|g| - 1 := Group(v.category, [v])] == groups + [Group(v.category, [v])];
  }

  /** A key the lookup finds past the standard groups is an unknown category's group, which the push extends. */
  lemma AddVideoExisting(known: seq<Group>, p: seq<Video>, v: Video, j: nat)
    requires forall m :: 0 <= m < |known| ==> known[m].key in CategoryOrder
    requires var groups := known + UnknownGroups(p); j < |groups| && groups[j].key == v.category
    requires v.category !in CategoryOrder
    ensures var groups := known + UnknownGroups(p);
            groups[j := Group(v.category, groups[j].items + [v])] == known + UnknownGroups(p + [v])
  {
    var d := Dedup(UnknownCategories(p));
    var groups := known + UnknownGroups(p);
    assert groups[j].key !in CategoryOrder;
    assert j >= |known|;
    assert d[j - |known|] == v.category;
    assert FirstIndex(d, v.category) == j - |known|;
    UnknownGroupsPush(p, v);
    assert groups[j].items == ItemsOf(p, v.category);
  }

  /**
   * The component's grouping: nothing to render for no videos; otherwise the `reduce`
   * followed by the `forEach` over the videos.
   */
  method GroupVideos(videos: seq<Video>) returns (grouped: Option<seq<Group>>)
    ensures videos == [] <==> grouped.None?
    ensures grouped.Some? ==> grouped.value == Grouping(videos)
  {
    if |videos| == 0 {
      return None;
    }
    var known := KnownGroups(videos, CategoryOrder);
    forall m | 0 <= m < |known| ensures known[m].key in CategoryOrder {
      KnownGroupsItems(videos, CategoryOrder, m);
    }
    var groups := known;
    var i := 0;
    assert videos[..0] == [];
    while i < |videos|
      invariant 0 <= i <= |videos|
      invariant groups == known + UnknownGroups(videos[..i])
    {
      assert videos[..i + 1] == videos[..i] + [videos[i]];
      groups := AddVideo(known, groups, videos[..i], videos[i]);
      i := i + 1;
    }
    assert videos[..i] == videos;
    return Some(groups);
  }

  /** Each group holds exactly the videos of its category, in input order, and is never empty. */
  lemma GroupingItems(videos: seq<Video>, i: nat)
    requires i < |Grouping(videos)|
    ensures Grouping(videos)[i].items == ItemsOf(videos, Grouping(videos)[i].key)
    ensures Grouping(videos)[i].items != []
  {
    var g := Grouping(videos);
    var kg := KnownGroups(videos, CategoryOrder);
    if i < |kg| {
      KnownGroupsItems(videos, CategoryOrder, i);
      assert g[i] == kg[i];
    } else {
      assert g[i] == UnknownGroups(videos)[i - |kg|];
      UnknownGroupAt(videos, i - |kg|);
      ItemsOfNonEmpty(videos, g[i].key);
    }
  }

  /** The group at `i` of the grouping, with where it comes from. */
  lemma GroupingAt(videos: seq<Video>, i: nat)
    requires i < |Grouping(videos)|
    ensures var g := Grouping(videos)[i];
            var kg := KnownGroups(videos, CategoryOrder);
            && (i < |kg| ==> g == kg[i] && g.key in CategoryOrder)
            && (i >= |kg| ==> g.key == Dedup(UnknownCategories(videos))[i - |kg|] && g.key !in CategoryOrder && g.key in Categories(videos))
  {
    var kg := KnownGroups(videos, CategoryOrder);
    if i < |kg| {
      KnownGroupsItems(videos, CategoryOrder, i);
      assert Grouping(videos)[i] == kg[i];
    } else {
      UnknownGroupAt(videos, i - |kg|);
      assert Grouping(videos)[i] == UnknownGroups(videos)[i - |kg|];
    }
  }

  lemma UnknownGroupAt(videos: seq<Video>, m: nat)
    requires m < |UnknownGroups(videos)|
    ensures var key := UnknownGroups(videos)[m].key;
            key == Dedup(UnknownCategories(videos))[m] && key !in CategoryOrder && key in Categories(videos)
  {
    var d := Dedup(UnknownCategories(videos));
    assert d[m] in UnknownCategories(videos);
    UnknownCategoriesMember(videos, d[m]);
  }

  /** Standard keys come before every other key, and follow `CategoryOrder`. */
  lemma GroupingKnownOrder(videos: seq<Video>, i: nat, j: nat)
    requires i < j < |Grouping(videos)|
    ensures var g := Grouping(videos);
            && (g[j].key in CategoryOrder ==> g[i].key in CategoryOrder)
            && (g[i].key in CategoryOrder && g[j].key in CategoryOrder ==>
                  Pos(CategoryOrder, g[i].key) < Pos(CategoryOrder, g[j].key))
  {
    var kg := KnownGroups(videos, CategoryOrder);
    GroupingAt(videos, i);
    GroupingAt(videos, j);
    if j < |kg| {
      CategoryOrderDistinct();
      KnownGroupsOrdered(videos, CategoryOrder, i, j);
    }
  }

  /** The unknown categories, deduplicated, follow the position of each category's first video. */
  lemma UnknownKeysOrder(videos: seq<Video>, a: nat, b: nat)
    requires a < b < |Dedup(UnknownCategories(videos))|
    ensures var d := Dedup(UnknownCategories(videos));
            d[a] in Categories(videos) && d[b] in Categories(videos) &&
            FirstIndex(Categories(videos), d[a]) < FirstIndex(Categories(videos), d[b])
  {
    var uc := UnknownCategories(videos);
    var d := Dedup(uc);
    assert d[a] in uc && d[b] in uc;
    DedupOrder(uc, a, b);
    UnknownOrderIsFirstAppearance(videos, d[a], d[b]);
  }

  /** The other keys follow the position of each category's first video. */
  lemma GroupingUnknownOrder(videos: seq<Video>, i: nat, j: nat)
    requires i < j < |Grouping(videos)|
    requires Grouping(videos)[i].key !in CategoryOrder && Grouping(videos)[j].key !in CategoryOrder
    ensures var g := Grouping(videos);
            g[i].key in Categories(videos) && g[j].key in Categories(videos) &&
            FirstIndex(Categories(videos), g[i].key) < FirstIndex(Categories(videos), g[j].key)
  {
    var n := |KnownGroups(videos, CategoryOrder)|;
    GroupingUnknownKey(videos, i);
    GroupingUnknownKey(videos, j);
    UnknownKeysOrder(videos, i - n, j - n);
  }

  lemma GroupingUnknownKey(videos: seq<Video>, i: nat)
    requires i < |Grouping(videos)| && Grouping(videos)[i].key !in CategoryOrder
    ensures var n := |KnownGroups(videos, CategoryOrder)|;
            n <= i && Grouping(videos)[i].key == Dedup(UnknownCategories(videos))[i - n]
  {
    GroupingAt(videos, i);
  }

  /** No key is used twice. */
  lemma GroupingKeysDistinct(videos: seq<Video>)
    ensures Distinct(Keys(Grouping(videos)))
  {
    var g := Grouping(videos);
    forall i, j | 0 <= i < j < |g| ensures g[i].key != g[j].key {
      GroupingKnownOrder(videos, i, j);
      if g[i].key !in CategoryOrder && g[j].key !in CategoryOrder {
        GroupingUnknownOrder(videos, i, j);
      }
    }
  }

  /** Every video lands in exactly one group: the one keyed by its category. */
  lemma VideoInOwnGroup(videos: seq<Video>, v: Video, i: nat)
    requires v in videos && i < |Grouping(videos)|
    ensures v.category in Keys(Grouping(videos))
    ensures v in Grouping(videos)[i].items <==> Grouping(videos)[i].key == v.category
  {
    var g := Grouping(videos);
    GroupingItems(videos, i);
    ItemsOfMember(videos, g[i].key, v);
    var k :| 0 <= k < |videos| && videos[k] == v;
    assert Categories(videos)[k] == v.category;
    CategoryHasGroup(videos, v.category);
  }

  /** Every category some video has is the key of a group. */
  lemma CategoryHasGroup(videos: seq<Video>, c: string)
    requires c in Categories(videos)
    ensures c in Keys(Grouping(videos))
  {
    var g := Grouping(videos);
    var kg := KnownGroups(videos, CategoryOrder);
    ItemsOfNonEmpty(videos, c);
    if c in CategoryOrder {
      KnownGroupsComplete(videos, CategoryOrder, c);
      var m :| 0 <= m < |kg| && kg[m].key == c;
      assert g[m].key == c;
    } else {
      UnknownCategoriesMember(videos, c);
      var d := Dedup(UnknownCategories(videos));
      assert c in d;
      var m := FirstIndex(d, c);
      assert UnknownGroups(videos)[m].key == c;
      assert g[|kg| + m].key == c;
    }
  }

  /** Among unknown categories, order in `UnknownCategories` is order of first video. */
  lemma {:induction false} UnknownOrderIsFirstAppearance(videos: seq<Video>, a: string, b: string)
    requires a in UnknownCategories(videos) && b in UnknownCategories(videos)
    ensures a in Categories(videos) && b in Categories(videos)
    ensures FirstIndex(UnknownCategories(videos), a) < FirstIndex(UnknownCategories(videos), b)
            <==> FirstIndex(Categories(videos), a) < FirstIndex(Categories(videos), b)
    decreases |videos|
  {
    var p := videos[..|videos| - 1];
    var v := videos[|videos| - 1];
    var uc := UnknownCategories(p);
    var ucv := UnknownCategories(videos);
    var cats := Categories(videos);
    assert cats == Categories(p) + [v.category];
    assert cats[..|p|] == Categories(p);
    assert ucv[..|uc|] == uc;
    UnknownCategoriesMember(videos, a);
    UnknownCategoriesMember(videos, b);
    UnknownCategoriesMember(p, a);
    UnknownCategoriesMember(p, b);
    if a in uc {
      FirstIndexOfPrefix(ucv, |uc|, a);
      FirstIndexOfPrefix(cats, |p|, a);
    }
    if b in uc {
      FirstIndexOfPrefix(ucv, |uc|, b);
      FirstIndexOfPrefix(cats, |p|, b);
    }
    if a in uc && b in uc {
      UnknownOrderIsFirstAppearance(p, a, b);
    } else if a in uc {
      assert b == v.category && FirstIndex(ucv, b) == |uc|;
      assert FirstIndex(cats, b) == |p|;
    } else if b in uc {
      assert a == v.category && FirstIndex(ucv, a) == |uc|;
      assert FirstIndex(cats, a) == |p|;
    }
  }

  /** The player overlay: the id of the video being played, if any. */
  class VideoPlayer {
    var activeVideo: Option<string>

    constructor()
      ensures activeVideo == None
    {
      activeVideo := None;
    }

    /** `ytId && setActiveVideo(ytId)`: a link without a readable id leaves the player as it was. */
    method ClickLink(link: VideoLink)
      modifies this
      ensures YouTube.GetYouTubeId(link.youtube_url).Some? ==> activeVideo == YouTube.GetYouTubeId(link.youtube_url)
      ensures YouTube.GetYouTubeId(link.youtube_url).None? ==> activeVideo == old(activeVideo)
    {
      var ytId := YouTube.GetYouTubeId(link.youtube_url);
      if ytId.Some? && ytId.value != "" {
        activeVideo := ytId;
      }
    }

    /** The backdrop and the close button both clear the player. */
    method Close()
      modifies this
      ensures activeVideo == None
    {
      activeVideo := None;
    }
  }
}
