/**
 * The state of the actor edit form and the load effect that fills it from the record
 * the edit query returns: every optional text becomes "" when missing or empty, a
 * video's category falls back to "drama_film", an award's profile flag to `true` only
 * when it is absent, and nested lists missing from the record become empty lists.
 */
module ActorFormData {
  import opened Wrappers
  import opened Text
  import opened Entities

  /** The seventeen text fields of the basic-information form, over any value type. */
  datatype ActorFields<S> = ActorFields(
    name_ko: S, name_en: S, slug: S, profile_image_url: S, instagram_id: S,
    homepage_url: S, namuwiki_url: S, followers: S, posts: S, following: S,
    avg_likes: S, avg_comments: S, height: S, language: S, brand_keyword: S,
    bio_headline: S, bio_text: S)

  /** The form state: every field a string. */
  type Form = ActorFields<string>

  const EmptyForm: Form := ActorFields("", "", "", "", "", "", "", "", "", "", "", "", "", "", "", "", "")

  datatype FormField =
    | NameKo | NameEn | Slug | ProfileImageUrl | InstagramId | HomepageUrl | NamuwikiUrl
    | Followers | Posts | Following | AvgLikes | AvgComments | Height | Language
    | BrandKeyword | BioHeadline | BioText

  function FormGet<S>(f: ActorFields<S>, k: FormField): S {
    match k
    case NameKo => f.name_ko
    case NameEn => f.name_en
    case Slug => f.slug
    case ProfileImageUrl => f.profile_image_url
    case InstagramId => f.instagram_id
    case HomepageUrl => f.homepage_url
    case NamuwikiUrl => f.namuwiki_url
    case Followers => f.followers
    case Posts => f.posts
    case Following => f.following
    case AvgLikes => f.avg_likes
    case AvgComments => f.avg_comments
    case Height => f.height
    case Language => f.language
    case BrandKeyword => f.brand_keyword
    case BioHeadline => f.bio_headline
    case BioText => f.bio_text
  }

  /** `setForm(p => ({ ...p, [k]: v }))`. */
  function FormSet<S>(f: ActorFields<S>, k: FormField, v: S): ActorFields<S> {
    match k
    case NameKo => f.(name_ko := v)
    case NameEn => f.(name_en := v)
    case Slug => f.(slug := v)
    case ProfileImageUrl => f.(profile_image_url := v)
    case InstagramId => f.(instagram_id := v)
    case HomepageUrl => f.(homepage_url := v)
    case NamuwikiUrl => f.(namuwiki_url := v)
    case Followers => f.(followers := v)
    case Posts => f.(posts := v)
    case Following => f.(following := v)
    case AvgLikes => f.(avg_likes := v)
    case AvgComments => f.(avg_comments := v)
    case Height => f.(height := v)
    case Language => f.(language := v)
    case BrandKeyword => f.(brand_keyword := v)
    case BioHeadline => f.(bio_headline := v)
    case BioText => f.(bio_text := v)
  }

  /** An input stores its value in its own field and leaves the other sixteen alone. */
  lemma FormFieldLaws<S>(f: ActorFields<S>, k: FormField, j: FormField, v: S)
    ensures FormGet(FormSet(f, k, v), k) == v
    ensures j != k ==> FormGet(FormSet(f, k, v), j) == FormGet(f, j)
    ensures FormSet(f, k, FormGet(f, k)) == f
  {
  }

  /** The actor row as the edit query returns it: every text field may be null. */
  type ActorRow = ActorFields<Option<string>>

  /** The form fields of the load effect: each `existingActor.x || ""`. */
  function LoadForm(a: ActorRow): (f: Form)
    ensures forall k :: Present(FormGet(a, k)) ==> FormGet(f, k) == FormGet(a, k).value
    ensures forall k :: !Present(FormGet(a, k)) ==> FormGet(f, k) == ""
  {
    ActorFields(
      OrEmpty(a.name_ko), OrEmpty(a.name_en), OrEmpty(a.slug), OrEmpty(a.profile_image_url),
      OrEmpty(a.instagram_id), OrEmpty(a.homepage_url), OrEmpty(a.namuwiki_url),
      OrEmpty(a.followers), OrEmpty(a.posts), OrEmpty(a.following), OrEmpty(a.avg_likes),
      OrEmpty(a.avg_comments), OrEmpty(a.height), OrEmpty(a.language), OrEmpty(a.brand_keyword),
      OrEmpty(a.bio_headline), OrEmpty(a.bio_text))
  }

  /** The actor row that saving a form writes: the form itself, every field a string. */
  function WrittenRow(f: Form): (a: ActorRow)
    ensures forall k :: FormGet(a, k) == Some(FormGet(f, k))
  {
    ActorFields(
      Some(f.name_ko), Some(f.name_en), Some(f.slug), Some(f.profile_image_url),
      Some(f.instagram_id), Some(f.homepage_url), Some(f.namuwiki_url),
      Some(f.followers), Some(f.posts), Some(f.following), Some(f.avg_likes),
      Some(f.avg_comments), Some(f.height), Some(f.language), Some(f.brand_keyword),
      Some(f.bio_headline), Some(f.bio_text))
  }

  /** Reloading the row a form was saved as gives back the same form. */
  lemma {:induction false} LoadFormRoundTrip(f: Form)
    ensures LoadForm(WrittenRow(f)) == f
  {
    var g := LoadForm(WrittenRow(f));
    forall k ensures FormGet(g, k) == FormGet(f, k) {
      assert FormGet(WrittenRow(f), k) == Some(FormGet(f, k));
    }
    assert g.name_ko == FormGet(g, NameKo) && g.slug == FormGet(g, Slug);
  }

  // ---- the market-insight block ----

  /** The insight state: nine text inputs, the numeric ones holding their digits. */
  datatype Insight = Insight(
    monthly_search: string, content_saturation: string, audience_interest: string,
    gender_female_pct: string, regional_impact: string, age_20s: string, age_30s: string,
    age_40s: string, core_age_description: string)

  const EmptyInsight := Insight("", "", "", "", "", "", "", "", "")

  datatype InsightField =
    | MonthlySearch | ContentSaturation | AudienceInterest | GenderFemalePct | RegionalImpact
    | Age20s | Age30s | Age40s | CoreAgeDescription

  /** The four fields saved through `parseInt`. */
  predicate IsNumeric(k: InsightField) {
    k == GenderFemalePct || k == Age20s || k == Age30s || k == Age40s
  }

  function InsightGet(ins: Insight, k: InsightField): string {
    match k
    case MonthlySearch => ins.monthly_search
    case ContentSaturation => ins.content_saturation
    case AudienceInterest => ins.audience_interest
    case GenderFemalePct => ins.gender_female_pct
    case RegionalImpact => ins.regional_impact
    case Age20s => ins.age_20s
    case Age30s => ins.age_30s
    case Age40s => ins.age_40s
    case CoreAgeDescription => ins.core_age_description
  }

  /** `setInsight(p => ({ ...p, [k]: v }))`. */
  function InsightSet(ins: Insight, k: InsightField, v: string): Insight {
    match k
    case MonthlySearch => ins.(monthly_search := v)
    case ContentSaturation => ins.(content_saturation := v)
    case AudienceInterest => ins.(audience_interest := v)
    case GenderFemalePct => ins.(gender_female_pct := v)
    case RegionalImpact => ins.(regional_impact := v)
    case Age20s => ins.(age_20s := v)
    case Age30s => ins.(age_30s := v)
    case Age40s => ins.(age_40s := v)
    case CoreAgeDescription => ins.(core_age_description := v)
  }

  lemma InsightFieldLaws(ins: Insight, k: InsightField, j: InsightField, v: string)
    ensures InsightGet(InsightSet(ins, k, v), k) == v
    ensures j != k ==> InsightGet(InsightSet(ins, k, v), j) == InsightGet(ins, j)
    ensures InsightSet(ins, k, InsightGet(ins, k)) == ins
  {
  }

  /** `Object.values(insight).some((v) => v)`: some input is non-empty. */
  predicate HasInsight(ins: Insight) {
    exists k :: InsightGet(ins, k) != ""
  }

  /** The empty insight block has nothing to save, and typing into any field gives it something. */
  lemma HasInsightCases(ins: Insight, k: InsightField, v: string)
    ensures !HasInsight(EmptyInsight)
    ensures v != "" ==> HasInsight(InsightSet(ins, k, v))
  {
    if v != "" {
      assert InsightGet(InsightSet(ins, k, v), k) != "";
    }
  }

  /** The insights row as the edit query returns it; the numeric columns are integers. */
  datatype InsightRecord = InsightRecord(
    monthly_search: Option<string>, content_saturation: Option<string>, audience_interest: Option<string>,
    gender_female_pct: Option<int>, regional_impact: Option<string>, age_20s: Option<int>,
    age_30s: Option<int>, age_40s: Option<int>, core_age_description: Option<string>)

  /** `n?.toString() || ""`: the decimal digits of a present number (never empty), else "". */
  function NumberText(n: Option<int>): (s: string)
    ensures n.None? <==> s == ""
    ensures n.Some? ==> s == IntToDecimal(n.value)
  {
    match n
    case Some(v) => IntToDecimal(v)
    case None => ""
  }

  function LoadInsight(r: InsightRecord): (ins: Insight)
    ensures forall k :: !IsNumeric(k) ==> (InsightGet(ins, k) == "" <==> InsightText(r, k).None?)
    ensures forall k :: IsNumeric(k) ==> (InsightGet(ins, k) == "" <==> InsightNumber(r, k).None?)
    ensures forall k :: !IsNumeric(k) ==> InsightGet(ins, k) == OrEmpty(InsightText(r, k))
    ensures forall k :: IsNumeric(k) ==> InsightGet(ins, k) == NumberText(InsightNumber(r, k))
  {
    Insight(
      OrEmpty(r.monthly_search), OrEmpty(r.content_saturation), OrEmpty(r.audience_interest),
      NumberText(r.gender_female_pct), OrEmpty(r.regional_impact), NumberText(r.age_20s),
      NumberText(r.age_30s), NumberText(r.age_40s), OrEmpty(r.core_age_description))
  }

  /** The text column behind a field, with the empty string read as missing. */
  function InsightText(r: InsightRecord, k: InsightField): Option<string> {
    var o := match k
      case MonthlySearch => r.monthly_search
      case ContentSaturation => r.content_saturation
      case AudienceInterest => r.audience_interest
      case RegionalImpact => r.regional_impact
      case CoreAgeDescription => r.core_age_description
      case _ => None;
    if Present(o) then o else None
  }

  /** The numeric column behind a field. */
  function InsightNumber(r: InsightRecord, k: InsightField): Option<int> {
    match k
    case GenderFemalePct => r.gender_female_pct
    case Age20s => r.age_20s
    case Age30s => r.age_30s
    case Age40s => r.age_40s
    case _ => None
  }

  // ---- the nested records of the edit query ----

  /** A careers row; `career_links` and `career_images` are present only when the query embeds them. */
  datatype CareerRecord = CareerRecord(
    category: string, sub_category: Option<string>, year_label: string, title: string,
    description: Option<string>, role_image_url: Option<string>,
    career_links: Option<seq<CareerLink>>, career_images: Option<seq<CareerImage>>)

  datatype VideoLinkRecord = VideoLinkRecord(youtube_url: string, link_label: Option<string>)
  datatype VideoRecord = VideoRecord(
    category: Option<string>, project_name: string, year_label: Option<string>,
    video_links: Option<seq<VideoLinkRecord>>)
  datatype AwardRecord = AwardRecord(
    title: string, year_label: Option<string>, tag_style: string, show_on_profile: Option<bool>,
    youtube_url: Option<string>)
  datatype EditorialRecord = EditorialRecord(
    year_label: Option<string>, media_name: Option<string>, editorial_media: Option<seq<EditorialMedia>>)

  /** Everything the edit query returns for one actor. */
  datatype ActorRecord = ActorRecord(
    fields: ActorRow, careers: seq<CareerRecord>, insights: Option<InsightRecord>,
    keywords: seq<Keyword>, videos: seq<VideoRecord>, awards: seq<AwardRecord>,
    actor_tags: seq<Tag>, images: seq<Image>, editorials: seq<EditorialRecord>)

  /** A career of the load effect: optional texts default to "", missing nested lists to []. */
  function LoadCareer(c: CareerRecord): (r: Career)
    ensures r.category == c.category && r.year_label == c.year_label && r.title == c.title
    ensures r.sub_category == OrEmpty(c.sub_category) && r.description == OrEmpty(c.description)
    ensures r.role_image_url == OrEmpty(c.role_image_url)
    ensures c.career_links.None? ==> r.links == []
    ensures c.career_links.Some? ==> r.links == c.career_links.value
    ensures c.career_images.None? ==> r.images == []
    ensures c.career_images.Some? ==> r.images == c.career_images.value
  {
    Career(c.category, OrEmpty(c.sub_category), c.year_label, c.title, OrEmpty(c.description),
           OrEmpty(c.role_image_url), c.career_links.GetOr([]), c.career_images.GetOr([]))
  }

  /** A video of the load effect: `category || "drama_film"`, `year_label || ""`, `link_label || ""`. */
  function LoadVideo(v: VideoRecord): (r: Video)
    ensures r.category != ""
    ensures Present(v.category) ==> r.category == v.category.value
    ensures !Present(v.category) ==> r.category == "drama_film"
    ensures r.project_name == v.project_name && r.year_label == OrEmpty(v.year_label)
    ensures |r.links| == |v.video_links.GetOr([])|
    ensures forall k :: 0 <= k < |r.links| ==>
              r.links[k] == VideoLink(v.video_links.value[k].youtube_url, OrEmpty(v.video_links.value[k].link_label))
  {
    var links := v.video_links.GetOr([]);
    Video(if Present(v.category) then v.category.value else "drama_film", v.project_name, OrEmpty(v.year_label),
          seq(|links|, k requires 0 <= k < |links| => VideoLink(links[k].youtube_url, OrEmpty(links[k].link_label))))
  }

  /**
   * An award of the load effect: `show_on_profile ?? true` keeps a stored `false`, unlike
   * the `||` defaults of the text fields.
   */
  function LoadAward(a: AwardRecord): (r: Award)
    ensures r.show_on_profile <==> (a.show_on_profile.None? || a.show_on_profile.value)
    ensures r.title == a.title && r.tag_style == a.tag_style
    ensures r.year_label == OrEmpty(a.year_label) && r.youtube_url == OrEmpty(a.youtube_url)
  {
    Award(a.title, OrEmpty(a.year_label), a.tag_style, a.show_on_profile.GetOr(true), OrEmpty(a.youtube_url))
  }

  function LoadEditorial(e: EditorialRecord): (r: Editorial)
    ensures r.year_label == OrEmpty(e.year_label) && r.media_name == OrEmpty(e.media_name)
    ensures e.editorial_media.None? ==> r.media == []
    ensures e.editorial_media.Some? ==> r.media == e.editorial_media.value
  {
    Editorial(OrEmpty(e.year_label), OrEmpty(e.media_name), e.editorial_media.GetOr([]))
  }

  /** The lists the load effect sets, one per cell. */
  datatype Loaded = Loaded(
    form: Form, careers: seq<Career>, insight: Option<Insight>, keywords: seq<Keyword>,
    videos: seq<Video>, awards: seq<Award>, tags: seq<Tag>, images: seq<Image>, editorials: seq<Editorial>)

  /**
   * The whole load effect: every list is mapped item by item in order; the insight block
   * is set only when the record has an insights row (`None` leaves the cell as it is).
   */
  function Load(a: ActorRecord): (l: Loaded)
    ensures l.insight.Some? <==> a.insights.Some?
    ensures |l.careers| == |a.careers| && |l.videos| == |a.videos| && |l.awards| == |a.awards|
    ensures |l.editorials| == |a.editorials|
    ensures l.keywords == a.keywords && l.tags == a.actor_tags && l.images == a.images
    ensures l.form == LoadForm(a.fields)
    ensures a.insights.Some? ==> l.insight == Some(LoadInsight(a.insights.value))
    ensures forall k :: 0 <= k < |a.careers| ==> l.careers[k] == LoadCareer(a.careers[k])
    ensures forall k :: 0 <= k < |a.videos| ==> l.videos[k] == LoadVideo(a.videos[k])
    ensures forall k :: 0 <= k < |a.awards| ==> l.awards[k] == LoadAward(a.awards[k])
    ensures forall k :: 0 <= k < |a.editorials| ==> l.editorials[k] == LoadEditorial(a.editorials[k])
  {
    Loaded(
      LoadForm(a.fields),
      seq(|a.careers|, k requires 0 <= k < |a.careers| => LoadCareer(a.careers[k])),
      if a.insights.Some? then Some(LoadInsight(a.insights.value)) else None,
      a.keywords,
      seq(|a.videos|, k requires 0 <= k < |a.videos| => LoadVideo(a.videos[k])),
      seq(|a.awards|, k requires 0 <= k < |a.awards| => LoadAward(a.awards[k])),
      a.actor_tags,
      a.images,
      seq(|a.editorials|, k requires 0 <= k < |a.editorials| => LoadEditorial(a.editorials[k])))
  }
}
