/**
 * The list-item shapes the admin editors work on (the local types of the actor form),
 * and the one-field updates the editors apply to them: every `updateItem(i, { field: value })`
 * call site passes exactly one field, so `{ ...item, ...updates }` is modelled as setting
 * that one field.
 */
module Entities {
  import opened Lists

  datatype CareerImage = CareerImage(image_url: string)
  datatype CareerLink = CareerLink(link_url: string, link_label: string)
  datatype Career = Career(
    category: string,
    sub_category: string,
    year_label: string,
    title: string,
    description: string,
    role_image_url: string,
    links: seq<CareerLink>,
    images: seq<CareerImage>)

  datatype Keyword = Keyword(keyword: string, size_class: string)
  datatype VideoLink = VideoLink(youtube_url: string, link_label: string)
  datatype Video = Video(category: string, project_name: string, year_label: string, links: seq<VideoLink>)
  datatype Award = Award(title: string, year_label: string, tag_style: string, show_on_profile: bool, youtube_url: string)
  datatype Tag = Tag(tag_text: string, tag_style: string)
  datatype Image = Image(image_url: string)
  datatype MediaType = MediaImage | MediaVideo
  datatype EditorialMedia = EditorialMedia(media_url: string, media_type: MediaType)
  datatype Editorial = Editorial(year_label: string, media_name: string, media: seq<EditorialMedia>)

  /** A blank career of the given category, with no links and no images. */
  function BlankCareer(category: string): Career {
    Career(category, "", "", "", "", "", [], [])
  }

  /** The items the "+ … 추가" buttons append. */
  const BlankKeyword := Keyword("", "tag-m")
  const BlankVideo := Video("drama_film", "", "", [])
  const BlankAward := Award("", "", "award", true, "")
  const BlankTag := Tag("", "normal")
  const BlankImage := Image("")
  const BlankEditorial := Editorial("", "", [])

  const BlankCareerLink := CareerLink("", "")
  const BlankCareerImage := CareerImage("")
  const BlankVideoLink := VideoLink("", "")
  const BlankMedia := EditorialMedia("", MediaImage)

  // ---- the text fields of a career that `updateItem` sets one at a time ----

  datatype CareerField = Category | SubCategory | YearLabel | Title | Description | RoleImageUrl

  function CareerGet(c: Career, f: CareerField): string {
    match f
    case Category => c.category
    case SubCategory => c.sub_category
    case YearLabel => c.year_label
    case Title => c.title
    case Description => c.description
    case RoleImageUrl => c.role_image_url
  }

  /** `{ ...c, [f]: v }`. */
  function CareerSet(c: Career, f: CareerField, v: string): Career {
    match f
    case Category => c.(category := v)
    case SubCategory => c.(sub_category := v)
    case YearLabel => c.(year_label := v)
    case Title => c.(title := v)
    case Description => c.(description := v)
    case RoleImageUrl => c.(role_image_url := v)
  }

  /** Setting a field stores the value, leaves the other fields and the nested lists alone, and re-setting the current value changes nothing. */
  lemma CareerFieldLaws(c: Career, f: CareerField, g: CareerField, v: string)
    ensures CareerGet(CareerSet(c, f, v), f) == v
    ensures f != g ==> CareerGet(CareerSet(c, f, v), g) == CareerGet(c, g)
    ensures CareerSet(c, f, v).links == c.links && CareerSet(c, f, v).images == c.images
    ensures CareerSet(c, f, CareerGet(c, f)) == c
  {
  }

  // ---- the text fields of a visual-archive video ----

  datatype VideoField = VideoCategory | ProjectName | VideoYearLabel

  function VideoGet(x: Video, f: VideoField): string {
    match f
    case VideoCategory => x.category
    case ProjectName => x.project_name
    case VideoYearLabel => x.year_label
  }

  function VideoSet(x: Video, f: VideoField, v: string): Video {
    match f
    case VideoCategory => x.(category := v)
    case ProjectName => x.(project_name := v)
    case VideoYearLabel => x.(year_label := v)
  }

  lemma VideoFieldLaws(x: Video, f: VideoField, g: VideoField, v: string)
    ensures VideoGet(VideoSet(x, f, v), f) == v
    ensures f != g ==> VideoGet(VideoSet(x, f, v), g) == VideoGet(x, g)
    ensures VideoSet(x, f, v).links == x.links
    ensures VideoSet(x, f, VideoGet(x, f)) == x
  {
  }

  // ---- the text fields of an award (the profile flag is set separately) ----

  datatype AwardField = AwardTitle | AwardYearLabel | AwardYoutubeUrl

  function AwardGet(a: Award, f: AwardField): string {
    match f
    case AwardTitle => a.title
    case AwardYearLabel => a.year_label
    case AwardYoutubeUrl => a.youtube_url
  }

  function AwardSet(a: Award, f: AwardField, v: string): Award {
    match f
    case AwardTitle => a.(title := v)
    case AwardYearLabel => a.(year_label := v)
    case AwardYoutubeUrl => a.(youtube_url := v)
  }

  lemma AwardFieldLaws(a: Award, f: AwardField, g: AwardField, v: string)
    ensures AwardGet(AwardSet(a, f, v), f) == v
    ensures f != g ==> AwardGet(AwardSet(a, f, v), g) == AwardGet(a, g)
    ensures AwardSet(a, f, v).show_on_profile == a.show_on_profile && AwardSet(a, f, v).tag_style == a.tag_style
    ensures AwardSet(a, f, AwardGet(a, f)) == a
  {
  }

  // ---- the text fields of an editorial ----

  datatype EditorialField = EditorialYearLabel | MediaName

  function EditorialGet(e: Editorial, f: EditorialField): string {
    match f
    case EditorialYearLabel => e.year_label
    case MediaName => e.media_name
  }

  function EditorialSet(e: Editorial, f: EditorialField, v: string): Editorial {
    match f
    case EditorialYearLabel => e.(year_label := v)
    case MediaName => e.(media_name := v)
  }

  lemma EditorialFieldLaws(e: Editorial, f: EditorialField, g: EditorialField, v: string)
    ensures EditorialGet(EditorialSet(e, f, v), f) == v
    ensures f != g ==> EditorialGet(EditorialSet(e, f, v), g) == EditorialGet(e, g)
    ensures EditorialSet(e, f, v).media == e.media
    ensures EditorialSet(e, f, EditorialGet(e, f)) == e
  {
  }
  // ---- the two text fields of a link ----

  datatype LinkField = LinkUrl | LinkLabel

  function CareerLinkSet(l: CareerLink, f: LinkField, v: string): CareerLink {
    match f
    case LinkUrl => l.(link_url := v)
    case LinkLabel => l.(link_label := v)
  }

  function VideoLinkSet(l: VideoLink, f: LinkField, v: string): VideoLink {
    match f
    case LinkUrl => l.(youtube_url := v)
    case LinkLabel => l.(link_label := v)
  }

  // ---- the nested edits of the career editors: `n[i].links[li].x = v` and friends ----

  /** Editing one field of link `li` of career `i` changes that link and nothing else. */
  function EditCareerLink(careers: seq<Career>, i: nat, li: nat, f: LinkField, v: string): (r: seq<Career>)
    requires i < |careers| && li < |careers[i].links|
    ensures |r| == |careers| && forall j :: 0 <= j < |r| && j != i ==> r[j] == careers[j]
    ensures r[i] == careers[i].(links := r[i].links) && |r[i].links| == |careers[i].links|
    ensures forall lj :: 0 <= lj < |r[i].links| && lj != li ==> r[i].links[lj] == careers[i].links[lj]
    ensures r[i].links[li] == CareerLinkSet(careers[i].links[li], f, v)
  {
    careers[i := careers[i].(links := careers[i].links[li := CareerLinkSet(careers[i].links[li], f, v)])]
  }

  /** The ✕ of a link: career `i` loses link `li`, every other career and link stays. */
  function RemoveCareerLink(careers: seq<Career>, i: nat, li: nat): (r: seq<Career>)
    requires i < |careers|
    ensures |r| == |careers| && forall j :: 0 <= j < |r| && j != i ==> r[j] == careers[j]
    ensures r[i] == careers[i].(links := RemoveAt(careers[i].links, li))
  {
    careers[i := careers[i].(links := RemoveAt(careers[i].links, li))]
  }

  /** "+ 링크 추가": career `i` gets a blank link at the end of its links. */
  function AddCareerLink(careers: seq<Career>, i: nat): (r: seq<Career>)
    requires i < |careers|
    ensures |r| == |careers| && forall j :: 0 <= j < |r| && j != i ==> r[j] == careers[j]
    ensures r[i] == careers[i].(links := careers[i].links + [BlankCareerLink])
  {
    careers[i := careers[i].(links := careers[i].links + [BlankCareerLink])]
  }

  /** Adding a link and removing the added one restores the careers. */
  lemma AddThenRemoveCareerLink(careers: seq<Career>, i: nat)
    requires i < |careers|
    ensures RemoveCareerLink(AddCareerLink(careers, i), i, |careers[i].links|) == careers
  {
    RemoveAppended(careers[i].links, BlankCareerLink);
    assert AddCareerLink(careers, i)[i].links == careers[i].links + [BlankCareerLink];
  }

  /** Editing a link field and then writing its old value back restores the careers. */
  lemma EditCareerLinkUndo(careers: seq<Career>, i: nat, li: nat, f: LinkField, v: string)
    requires i < |careers| && li < |careers[i].links|
    ensures var old_value := match f case LinkUrl => careers[i].links[li].link_url
                                     case LinkLabel => careers[i].links[li].link_label;
            EditCareerLink(EditCareerLink(careers, i, li, f, v), i, li, f, old_value) == careers
  {
    var r := EditCareerLink(careers, i, li, f, v);
    var old_value := match f case LinkUrl => careers[i].links[li].link_url
                             case LinkLabel => careers[i].links[li].link_label;
    var b := EditCareerLink(r, i, li, f, old_value);
    assert b[i].links == careers[i].links;
    assert b[i] == careers[i];
  }

  /** `n[i].images[ii].image_url = v`: only that still of career `i` changes. */
  function EditCareerImage(careers: seq<Career>, i: nat, ii: nat, v: string): (r: seq<Career>)
    requires i < |careers| && ii < |careers[i].images|
    ensures |r| == |careers| && forall j :: 0 <= j < |r| && j != i ==> r[j] == careers[j]
    ensures r[i] == careers[i].(images := r[i].images) && |r[i].images| == |careers[i].images|
    ensures forall k :: 0 <= k < |r[i].images| && k != ii ==> r[i].images[k] == careers[i].images[k]
    ensures r[i].images[ii].image_url == v
  {
    careers[i := careers[i].(images := careers[i].images[ii := CareerImage(v)])]
  }

  function RemoveCareerImage(careers: seq<Career>, i: nat, ii: nat): (r: seq<Career>)
    requires i < |careers|
    ensures |r| == |careers| && forall j :: 0 <= j < |r| && j != i ==> r[j] == careers[j]
    ensures r[i] == careers[i].(images := RemoveAt(careers[i].images, ii))
  {
    careers[i := careers[i].(images := RemoveAt(careers[i].images, ii))]
  }

  function AddCareerImage(careers: seq<Career>, i: nat): (r: seq<Career>)
    requires i < |careers|
    ensures |r| == |careers| && forall j :: 0 <= j < |r| && j != i ==> r[j] == careers[j]
    ensures r[i] == careers[i].(images := careers[i].images + [BlankCareerImage])
  {
    careers[i := careers[i].(images := careers[i].images + [BlankCareerImage])]
  }

  lemma AddThenRemoveCareerImage(careers: seq<Career>, i: nat)
    requires i < |careers|
    ensures RemoveCareerImage(AddCareerImage(careers, i), i, |careers[i].images|) == careers
  {
    RemoveAppended(careers[i].images, BlankCareerImage);
    assert AddCareerImage(careers, i)[i].images == careers[i].images + [BlankCareerImage];
  }

  // ---- the nested edits of the visual-archive editor over `links` ----

  function EditVideoLink(videos: seq<Video>, i: nat, li: nat, f: LinkField, v: string): (r: seq<Video>)
    requires i < |videos| && li < |videos[i].links|
    ensures |r| == |videos| && forall j :: 0 <= j < |r| && j != i ==> r[j] == videos[j]
    ensures r[i] == videos[i].(links := r[i].links) && |r[i].links| == |videos[i].links|
    ensures forall lj :: 0 <= lj < |r[i].links| && lj != li ==> r[i].links[lj] == videos[i].links[lj]
    ensures r[i].links[li] == VideoLinkSet(videos[i].links[li], f, v)
  {
    videos[i := videos[i].(links := videos[i].links[li := VideoLinkSet(videos[i].links[li], f, v)])]
  }

  function RemoveVideoLink(videos: seq<Video>, i: nat, li: nat): (r: seq<Video>)
    requires i < |videos|
    ensures |r| == |videos| && forall j :: 0 <= j < |r| && j != i ==> r[j] == videos[j]
    ensures r[i] == videos[i].(links := RemoveAt(videos[i].links, li))
  {
    videos[i := videos[i].(links := RemoveAt(videos[i].links, li))]
  }

  function AddVideoLink(videos: seq<Video>, i: nat): (r: seq<Video>)
    requires i < |videos|
    ensures |r| == |videos| && forall j :: 0 <= j < |r| && j != i ==> r[j] == videos[j]
    ensures r[i] == videos[i].(links := videos[i].links + [BlankVideoLink])
  {
    videos[i := videos[i].(links := videos[i].links + [BlankVideoLink])]
  }

  lemma AddThenRemoveVideoLink(videos: seq<Video>, i: nat)
    requires i < |videos|
    ensures RemoveVideoLink(AddVideoLink(videos, i), i, |videos[i].links|) == videos
  {
    RemoveAppended(videos[i].links, BlankVideoLink);
    assert AddVideoLink(videos, i)[i].links == videos[i].links + [BlankVideoLink];
  }

  // ---- the nested edits of the editorial editor over `media` ----

  /** `n[i].media[mi] := m'`: only entry `mi` of editorial `i` changes. */
  function EditMedia(eds: seq<Editorial>, i: nat, mi: nat, m: EditorialMedia): (r: seq<Editorial>)
    requires i < |eds| && mi < |eds[i].media|
    ensures |r| == |eds| && forall j :: 0 <= j < |r| && j != i ==> r[j] == eds[j]
    ensures r[i] == eds[i].(media := r[i].media) && |r[i].media| == |eds[i].media|
    ensures forall k :: 0 <= k < |r[i].media| && k != mi ==> r[i].media[k] == eds[i].media[k]
    ensures r[i].media[mi] == m
  {
    eds[i := eds[i].(media := eds[i].media[mi := m])]
  }

  function RemoveMedia(eds: seq<Editorial>, i: nat, mi: nat): (r: seq<Editorial>)
    requires i < |eds|
    ensures |r| == |eds| && forall j :: 0 <= j < |r| && j != i ==> r[j] == eds[j]
    ensures r[i] == eds[i].(media := RemoveAt(eds[i].media, mi))
  {
    eds[i := eds[i].(media := RemoveAt(eds[i].media, mi))]
  }

  function AddMedia(eds: seq<Editorial>, i: nat): (r: seq<Editorial>)
    requires i < |eds|
    ensures |r| == |eds| && forall j :: 0 <= j < |r| && j != i ==> r[j] == eds[j]
    ensures r[i] == eds[i].(media := eds[i].media + [BlankMedia])
  {
    eds[i := eds[i].(media := eds[i].media + [BlankMedia])]
  }

  lemma AddThenRemoveMedia(eds: seq<Editorial>, i: nat)
    requires i < |eds|
    ensures RemoveMedia(AddMedia(eds, i), i, |eds[i].media|) == eds
  {
    RemoveAppended(eds[i].media, BlankMedia);
    assert AddMedia(eds, i)[i].media == eds[i].media + [BlankMedia];
  }
}
