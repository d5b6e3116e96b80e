/**
 * `handleSave` of the actor edit form, with the database as a log of calls. The actor
 * row is inserted (new actor) or updated and its children deleted; then the careers,
 * the videos and the editorials are inserted one by one, each followed by its child
 * rows; the insights, keywords, awards, tags and profile images are queued and run
 * together at the end. A failed actor write or career insert ends the save with its
 * message; a failed video or editorial insert whose child rows then need its id ends it
 * with the JavaScript null-access error. Every other error is ignored, as in the source.
 */
module ActorSave {
  import opened Wrappers
  import opened Lists
  import opened Text
  import opened Entities
  import opened ActorFormData

  // ---- the rows written ----

  datatype CareerRow = CareerRow(
    actor_id: string, category: string, sub_category: Option<string>, role_image_url: Option<string>,
    year_label: string, title: string, description: Option<string>, sort_order: nat)
  datatype CareerImageRow = CareerImageRow(career_id: string, image_url: string, sort_order: nat)
  datatype CareerLinkRow = CareerLinkRow(career_id: string, link_url: string, link_label: string, sort_order: nat)
  datatype VideoRow = VideoRow(actor_id: string, category: string, project_name: string, year_label: string, sort_order: nat)
  datatype VideoLinkRow = VideoLinkRow(video_id: string, youtube_url: string, link_label: string, sort_order: nat)
  datatype EditorialRow = EditorialRow(actor_id: string, year_label: string, media_name: string, sort_order: nat)
  datatype MediaRow = MediaRow(editorial_id: string, media_url: string, media_type: MediaType, sort_order: nat)
  /** The numeric columns carry the text handed to `parseInt`. */
  datatype InsightRow = InsightRow(
    actor_id: string, monthly_search: Option<string>, content_saturation: Option<string>,
    audience_interest: Option<string>, gender_female_pct: Option<string>, regional_impact: Option<string>,
    age_20s: Option<string>, age_30s: Option<string>, age_40s: Option<string>,
    core_age_description: Option<string>)
  datatype KeywordRow = KeywordRow(keyword: string, size_class: string, actor_id: string)
  datatype AwardRow = AwardRow(
    title: string, year_label: Option<string>, tag_style: string, show_on_profile: bool,
    actor_id: string, youtube_url: Option<string>)
  datatype TagRow = TagRow(tag_text: string, tag_style: string, actor_id: string)
  datatype ImageRow = ImageRow(image_url: string, actor_id: string, sort_order: nat)

  /** One database call, in the order the save issues them. */
  datatype Call =
    | InsertActor(form: Form)
    | UpdateActor(id: string, form: Form)
    | DeleteChildren(actor_id: string)
    | InsertCareer(career: CareerRow)
    | InsertCareerImages(careerImages: seq<CareerImageRow>)
    | InsertCareerLinks(careerLinks: seq<CareerLinkRow>)
    | InsertVideo(video: VideoRow)
    | InsertVideoLinks(videoLinks: seq<VideoLinkRow>)
    | InsertEditorial(editorial: EditorialRow)
    | InsertEditorialMedia(media: seq<MediaRow>)
    | InsertInsight(insight: InsightRow)
    | InsertKeywords(keywords: seq<KeywordRow>)
    | InsertAwards(awards: seq<AwardRow>)
    | InsertTags(tags: seq<TagRow>)
    | InsertImages(images: seq<ImageRow>)

  /** What the database answered to an insert or update: the row's id, or an error message. */
  datatype Answer = Row(id: string) | Failed(message: string)

  /** The answers to the calls whose result the save reads, one per actor, career, video and editorial. */
  datatype Answers = Answers(actor: Answer, careers: seq<Answer>, videos: seq<Answer>, editorials: seq<Answer>)

  /** The form state the save reads. */
  datatype Draft = Draft(
    form: Form, careers: seq<Career>, insight: Insight, keywords: seq<Keyword>, videos: seq<Video>,
    awards: seq<Award>, tags: seq<Tag>, images: seq<Image>, editorials: seq<Editorial>)

  /** The calls made so far, and the message of the error that ended the save, if any. */
  datatype Run = Run(calls: seq<Call>, thrown: Option<string>)

  /** How the save ended: refused by the guard, saved, or stopped by an error. */
  datatype Outcome = Refused | Saved | Stopped(message: string)

  /** The message of reading `.id` of the null `data` a failed insert returns. */
  const NullRowMessage := "Cannot read properties of null (reading 'id')"

  /** The guard of `handleSave`: both the Korean name and the slug are non-empty. */
  predicate CanSave(form: Form) {
    form.name_ko != "" && form.slug != ""
  }

  // ---- the career rows ----

  /** `img.image_url.trim()` is truthy. */
  predicate NonBlankImage(img: CareerImage) {
    Trim(img.image_url) != ""
  }

  predicate NonBlankLink(link: CareerLink) {
    Trim(link.link_url) != ""
  }

  /** The filter callback `(img) => img.image_url.trim()`. */
  function KeepImage(): CareerImage -> bool {
    (img: CareerImage) => NonBlankImage(img)
  }

  /** The filter callback `(link) => link.link_url.trim()`. */
  function KeepLink(): CareerLink -> bool {
    (link: CareerLink) => NonBlankLink(link)
  }

  /** `images.filter((img) => img.image_url.trim())`. */
  function KeptImages(images: seq<CareerImage>): (r: seq<CareerImage>)
    ensures |r| <= |images|
  {
    Filter(images, KeepImage())
  }

  /** An image is kept exactly when it is in the list and its URL is not blank. */
  lemma KeptImagesMember(images: seq<CareerImage>, img: CareerImage)
    ensures img in KeptImages(images) <==> img in images && NonBlankImage(img)
  {
    FilterMember(images, KeepImage(), img);
  }

  /** Filtering keeps the relative order: it distributes over concatenation. */
  lemma KeptImagesAppend(a: seq<CareerImage>, b: seq<CareerImage>)
    ensures KeptImages(a + b) == KeptImages(a) + KeptImages(b)
  {
    FilterAppend(a, b, KeepImage());
  }

  function KeptLinks(links: seq<CareerLink>): (r: seq<CareerLink>)
    ensures |r| <= |links|
  {
    Filter(links, KeepLink())
  }

  lemma KeptLinksMember(links: seq<CareerLink>, link: CareerLink)
    ensures link in KeptLinks(links) <==> link in links && NonBlankLink(link)
  {
    FilterMember(links, KeepLink(), link);
  }

  /** When every URL is filled in, nothing is filtered out. */
  lemma KeptLinksAll(links: seq<CareerLink>)
    requires forall k :: 0 <= k < |links| ==> NonBlankLink(links[k])
    ensures KeptLinks(links) == links
  {
    FilterAllOrNone(links, KeepLink());
  }

  lemma KeptImagesAll(images: seq<CareerImage>)
    requires forall k :: 0 <= k < |images| ==> NonBlankImage(images[k])
    ensures KeptImages(images) == images
  {
    FilterAllOrNone(images, KeepImage());
  }

  /** The `career_images` rows: the kept images in order, numbered 0, 1, 2, … */
  function ImageRowsOf(careerId: string, images: seq<CareerImage>): (rows: seq<CareerImageRow>)
    ensures |rows| == |KeptImages(images)|
    ensures forall k :: 0 <= k < |rows| ==>
              rows[k] == CareerImageRow(careerId, KeptImages(images)[k].image_url, k)
  {
    var kept := KeptImages(images);
    seq(|kept|, k requires 0 <= k < |kept| => CareerImageRow(careerId, kept[k].image_url, k))
  }

  /** The `career_links` rows: the kept links in order, numbered 0, 1, 2, … */
  function LinkRowsOf(careerId: string, links: seq<CareerLink>): (rows: seq<CareerLinkRow>)
    ensures |rows| == |KeptLinks(links)|
    ensures forall k :: 0 <= k < |rows| ==>
              rows[k] == CareerLinkRow(careerId, KeptLinks(links)[k].link_url, KeptLinks(links)[k].link_label, k)
  {
    var kept := KeptLinks(links);
    seq(|kept|, k requires 0 <= k < |kept| =>
      CareerLinkRow(careerId, kept[k].link_url, kept[k].link_label, k))
  }

  /** No written image or link row has a blank URL. */
  lemma ChildRowsNonBlank(careerId: string, c: Career)
    ensures forall r :: r in ImageRowsOf(careerId, c.images) ==> Trim(r.image_url) != ""
    ensures forall r :: r in LinkRowsOf(careerId, c.links) ==> Trim(r.link_url) != ""
  {
    forall r | r in ImageRowsOf(careerId, c.images) ensures Trim(r.image_url) != "" {
      var k :| 0 <= k < |ImageRowsOf(careerId, c.images)| && ImageRowsOf(careerId, c.images)[k] == r;
      KeptImagesMember(c.images, KeptImages(c.images)[k]);
    }
    forall r | r in LinkRowsOf(careerId, c.links) ensures Trim(r.link_url) != "" {
      var k :| 0 <= k < |LinkRowsOf(careerId, c.links)| && LinkRowsOf(careerId, c.links)[k] == r;
      KeptLinksMember(c.links, KeptLinks(c.links)[k]);
    }
  }

  /** The careers row: empty optional texts are written as null, `sort_order` is the list index. */
  function CareerRowOf(actorId: string, c: Career, i: nat): (row: CareerRow)
    ensures row.sort_order == i && row.actor_id == actorId
    ensures row.sub_category == OrNull(c.sub_category) && row.description == OrNull(c.description)
    ensures row.role_image_url == OrNull(c.role_image_url)
    ensures row.category == c.category && row.year_label == c.year_label && row.title == c.title
  {
    CareerRow(actorId, c.category, OrNull(c.sub_category), OrNull(c.role_image_url), c.year_label,
              c.title, OrNull(c.description), i)
  }

  /**
   * One career: its insert, then (when its insert succeeded) the image rows when it has
   * images and the link rows when it has links. A career whose images are all blank still
   * sends an empty image insert.
   */
  function CareerStep(actorId: string, c: Career, i: nat, answer: Answer): Run {
    var insert := [InsertCareer(CareerRowOf(actorId, c, i))];
    match answer
    case Failed(m) => Run(insert, Some(m))
    case Row(id) =>
      Run(insert + ChildInserts(|c.images| > 0, ImageRowsOf(id, c.images), |c.links| > 0, LinkRowsOf(id, c.links)), None)
  }

  /** The stills insert when the career has stills, then the links insert when it has links. */
  function ChildInserts(hasImages: bool, imageRows: seq<CareerImageRow>, hasLinks: bool, linkRows: seq<CareerLinkRow>): (r: seq<Call>)
    ensures forall k :: 0 <= k < |r| ==> !r[k].InsertCareer?
  {
    (if hasImages then [InsertCareerImages(imageRows)] else [])
    + (if hasLinks then [InsertCareerLinks(linkRows)] else [])
  }

  // ---- the video and editorial rows ----

  function VideoStep(actorId: string, v: Video, i: nat, answer: Answer): Run {
    var insert := [InsertVideo(VideoRow(actorId, v.category, v.project_name, v.year_label, i))];
    if |v.links| == 0 then Run(insert, None)
    else match answer
      case Failed(_) => Run(insert, Some(NullRowMessage))
      case Row(id) =>
        var links := seq(|v.links|, k requires 0 <= k < |v.links| =>
          VideoLinkRow(id, v.links[k].youtube_url, v.links[k].link_label, k));
        Run(insert + [InsertVideoLinks(links)], None)
  }

  function EditorialStep(actorId: string, e: Editorial, i: nat, answer: Answer): Run {
    var insert := [InsertEditorial(EditorialRow(actorId, e.year_label, e.media_name, i))];
    if |e.media| == 0 then Run(insert, None)
    else match answer
      case Failed(_) => Run(insert, Some(NullRowMessage))
      case Row(id) =>
        var media := seq(|e.media|, k requires 0 <= k < |e.media| =>
          MediaRow(id, e.media[k].media_url, e.media[k].media_type, k));
        Run(insert + [InsertEditorialMedia(media)], None)
  }

  /**
   * The first `n` rounds of a `for (let i = 0; …)` loop whose round `i` is
   * `step(actorId, items[i], i, answers[i])`; a round that throws ends the loop.
   */
  function Steps<T>(actorId: string, items: seq<T>, answers: seq<Answer>,
                    step: (string, T, nat, Answer) -> Run, n: nat): Run
    requires n <= |items| == |answers|
    decreases n
  {
    if n == 0 then Run([], None)
    else
      var before := Steps(actorId, items, answers, step, n - 1);
      if before.thrown.Some? then before
      else
        var r := step(actorId, items[n - 1], n - 1, answers[n - 1]);
        Run(before.calls + r.calls, r.thrown)
  }

  /** Once a round has thrown, later rounds add nothing. */
  lemma {:induction false} StepsStop<T>(actorId: string, items: seq<T>, answers: seq<Answer>,
                                       step: (string, T, nat, Answer) -> Run, n: nat, m: nat)
    requires n <= m <= |items| == |answers|
    requires Steps(actorId, items, answers, step, n).thrown.Some?
    ensures Steps(actorId, items, answers, step, m) == Steps(actorId, items, answers, step, n)
    decreases m
  {
    if m > n {
      StepsStop(actorId, items, answers, step, n, m - 1);
    }
  }

  /** The loop itself: one round per item, leaving at the first round that throws. */
  method RunSteps<T>(actorId: string, items: seq<T>, answers: seq<Answer>,
                     step: (string, T, nat, Answer) -> Run) returns (run: Run)
    requires |items| == |answers|
    ensures run == Steps(actorId, items, answers, step, |items|)
  {
    run := Run([], None);
    var i := 0;
    while i < |items|
      invariant 0 <= i <= |items|
      invariant run == Steps(actorId, items, answers, step, i)
      invariant run.thrown.None?
    {
      var r := step(actorId, items[i], i, answers[i]);
      run := Run(run.calls + r.calls, r.thrown);
      i := i + 1;
      if run.thrown.Some? {
        StepsStop(actorId, items, answers, step, i, |items|);
        return;
      }
    }
  }

  // ---- the queued inserts ----

  function InsightRowOf(actorId: string, ins: Insight): (row: InsightRow)
    ensures row.gender_female_pct == OrNull(ins.gender_female_pct) && row.age_20s == OrNull(ins.age_20s)
    ensures row.monthly_search == OrNull(ins.monthly_search)
  {
    InsightRow(actorId, OrNull(ins.monthly_search), OrNull(ins.content_saturation),
               OrNull(ins.audience_interest), OrNull(ins.gender_female_pct), OrNull(ins.regional_impact),
               OrNull(ins.age_20s), OrNull(ins.age_30s), OrNull(ins.age_40s), OrNull(ins.core_age_description))
  }

  /** The column of the insights row that field `k` is written to. */
  function InsightColumn(row: InsightRow, k: InsightField): Option<string> {
    match k
    case MonthlySearch => row.monthly_search
    case ContentSaturation => row.content_saturation
    case AudienceInterest => row.audience_interest
    case GenderFemalePct => row.gender_female_pct
    case RegionalImpact => row.regional_impact
    case Age20s => row.age_20s
    case Age30s => row.age_30s
    case Age40s => row.age_40s
    case CoreAgeDescription => row.core_age_description
  }

  /** Each column is null exactly when its input is empty, and otherwise carries the input. */
  lemma InsightColumns(actorId: string, ins: Insight, k: InsightField)
    ensures InsightColumn(InsightRowOf(actorId, ins), k) == OrNull(InsightGet(ins, k))
    ensures InsightColumn(InsightRowOf(actorId, ins), k).None? <==> InsightGet(ins, k) == ""
  {
  }

  /**
   * The inserts pushed onto `promises`, in push order: the insights row when some input is
   * filled in, then each of the other lists when it is non-empty.
   */
  function Queued(actorId: string, d: Draft): seq<Call> {
    (if HasInsight(d.insight) then [InsertInsight(InsightRowOf(actorId, d.insight))] else [])
    + QueuedLists(actorId, d)
  }

  /** The queued inserts of the keyword, award, tag and image lists, none of them an insights insert. */
  function QueuedLists(actorId: string, d: Draft): (r: seq<Call>)
    ensures forall c :: c in r ==> !c.InsertInsight?
  {
    (if |d.keywords| > 0 then
         [InsertKeywords(seq(|d.keywords|, k requires 0 <= k < |d.keywords| =>
            KeywordRow(d.keywords[k].keyword, d.keywords[k].size_class, actorId)))]
       else [])
    + (if |d.awards| > 0 then
         [InsertAwards(seq(|d.awards|, k requires 0 <= k < |d.awards| =>
            AwardRow(d.awards[k].title, OrNull(d.awards[k].year_label), d.awards[k].tag_style,
                     d.awards[k].show_on_profile, actorId, OrNull(d.awards[k].youtube_url))))]
       else [])
    + (if |d.tags| > 0 then
         [InsertTags(seq(|d.tags|, k requires 0 <= k < |d.tags| =>
            TagRow(d.tags[k].tag_text, d.tags[k].tag_style, actorId)))]
       else [])
    + (if |d.images| > 0 then
         [InsertImages(seq(|d.images|, k requires 0 <= k < |d.images| =>
            ImageRow(d.images[k].image_url, actorId, k)))]
       else [])
  }

  /** The insights row is queued exactly when some insight input is non-empty. */
  lemma {:induction false} InsightQueuedIff(actorId: string, d: Draft)
    ensures InsertInsight(InsightRowOf(actorId, d.insight)) in Queued(actorId, d) <==> HasInsight(d.insight)
  {
    var rest := QueuedLists(actorId, d);
    if HasInsight(d.insight) {
      assert Queued(actorId, d)[0] == InsertInsight(InsightRowOf(actorId, d.insight));
    } else {
      assert Queued(actorId, d) == rest;
    }
  }

  /** The profile image rows are numbered by their list index. */
  lemma QueuedImagesNumbered(actorId: string, d: Draft)
    requires |d.images| > 0
    ensures Queued(actorId, d)[|Queued(actorId, d)| - 1].InsertImages?
    ensures var rows := Queued(actorId, d)[|Queued(actorId, d)| - 1].images;
            |rows| == |d.images| && forall k :: 0 <= k < |rows| ==> rows[k] == ImageRow(d.images[k].image_url, actorId, k)
  {
  }

  // ---- the whole save ----

  /** The actor write: an insert for a new actor, else an update followed by the deletes. */
  function ActorWrite(isNew: bool, id: string, form: Form, answer: Answer): (r: (Run, string))
    ensures r.0.thrown.Some? <==> answer.Failed?
  {
    if isNew then
      match answer
      case Failed(m) => (Run([InsertActor(form)], Some(m)), "")
      case Row(newId) => (Run([InsertActor(form)], None), newId)
    else
      match answer
      case Failed(m) => (Run([UpdateActor(id, form)], Some(m)), "")
      case Row(_) => (Run([UpdateActor(id, form), DeleteChildren(id)], None), id)
  }

  datatype Result = Result(calls: seq<Call>, outcome: Outcome)

  /** The specification of `handleSave`: the calls it makes and how it ends. */
  function Save(isNew: bool, id: string, d: Draft, ans: Answers): Result
    requires |ans.careers| == |d.careers| && |ans.videos| == |d.videos| && |ans.editorials| == |d.editorials|
  {
    if !CanSave(d.form) then Result([], Refused)
    else
      var (w, actorId) := ActorWrite(isNew, id, d.form, ans.actor);
      if w.thrown.Some? then Result(w.calls, Stopped(w.thrown.value))
      else
        var cs := Steps(actorId, d.careers, ans.careers, CareerStep, |d.careers|);
        if cs.thrown.Some? then Result(w.calls + cs.calls, Stopped(cs.thrown.value))
        else
          var vs := Steps(actorId, d.videos, ans.videos, VideoStep, |d.videos|);
          if vs.thrown.Some? then Result(w.calls + cs.calls + vs.calls, Stopped(vs.thrown.value))
          else
            var es := Steps(actorId, d.editorials, ans.editorials, EditorialStep, |d.editorials|);
            if es.thrown.Some? then Result(w.calls + cs.calls + vs.calls + es.calls, Stopped(es.thrown.value))
            else Result(w.calls + cs.calls + vs.calls + es.calls + Queued(actorId, d), Saved)
  }

  /**
   * `handleSave` from the guard to `Promise.all`: the actor write, the three awaited
   * loops, and the queued inserts.
   */
  method Persist(isNew: bool, id: string, d: Draft, ans: Answers) returns (calls: seq<Call>, outcome: Outcome)
    requires |ans.careers| == |d.careers| && |ans.videos| == |d.videos| && |ans.editorials| == |d.editorials|
    ensures Result(calls, outcome) == Save(isNew, id, d, ans)
  {
    if d.form.name_ko == "" || d.form.slug == "" {
      return [], Refused;
    }
    var w, actorId := ActorWrite(isNew, id, d.form, ans.actor).0, ActorWrite(isNew, id, d.form, ans.actor).1;
    calls := w.calls;
    if w.thrown.Some? {
      return calls, Stopped(w.thrown.value);
    }
    var cs := RunSteps(actorId, d.careers, ans.careers, CareerStep);
    calls := calls + cs.calls;
    if cs.thrown.Some? {
      return calls, Stopped(cs.thrown.value);
    }
    var vs := RunSteps(actorId, d.videos, ans.videos, VideoStep);
    calls := calls + vs.calls;
    if vs.thrown.Some? {
      return calls, Stopped(vs.thrown.value);
    }
    var es := RunSteps(actorId, d.editorials, ans.editorials, EditorialStep);
    calls := calls + es.calls;
    if es.thrown.Some? {
      return calls, Stopped(es.thrown.value);
    }
    calls := calls + Queued(actorId, d);
    outcome := Saved;
  }

  /** The guard: without a Korean name or a slug nothing is written; with both something is. */
  lemma SaveRefused(isNew: bool, id: string, d: Draft, ans: Answers)
    requires |ans.careers| == |d.careers| && |ans.videos| == |d.videos| && |ans.editorials| == |d.editorials|
    ensures Save(isNew, id, d, ans).outcome == Refused <==> d.form.name_ko == "" || d.form.slug == ""
    ensures Save(isNew, id, d, ans).outcome == Refused <==> Save(isNew, id, d, ans).calls == []
  {
    if CanSave(d.form) {
      var (w, actorId) := ActorWrite(isNew, id, d.form, ans.actor);
      assert |w.calls| > 0;
    }
  }

  // ---- contiguous numbering of the looped inserts ----

  /** The rows of one table among a list of calls, in call order; `pick` reads a call's row. */
  function RowsOf<R>(calls: seq<Call>, pick: Call -> Option<R>): seq<R>
    decreases |calls|
  {
    if calls == [] then []
    else
      var init := calls[..|calls| - 1];
      var last := calls[|calls| - 1];
      RowsOf(init, pick) + (if pick(last).Some? then [pick(last).value] else [])
  }

  function CareerPick(c: Call): Option<CareerRow> {
    if c.InsertCareer? then Some(c.career) else None
  }

  function VideoPick(c: Call): Option<VideoRow> {
    if c.InsertVideo? then Some(c.video) else None
  }

  function EditorialPick(c: Call): Option<EditorialRow> {
    if c.InsertEditorial? then Some(c.editorial) else None
  }

  lemma {:induction false} RowsOfAppend<R>(a: seq<Call>, b: seq<Call>, pick: Call -> Option<R>)
    ensures RowsOf(a + b, pick) == RowsOf(a, pick) + RowsOf(b, pick)
    decreases |b|
  {
    if b == [] {
      assert a + b == a;
    } else {
      var init := b[..|b| - 1];
      assert b == init + [b[|b| - 1]];
      assert a + b == (a + init) + [b[|b| - 1]];
      assert (a + b)[..|a + b| - 1] == a + init;
      RowsOfAppend(a, init, pick);
    }
  }

  lemma RowsOfSingleton<R>(c: Call, pick: Call -> Option<R>)
    ensures RowsOf([c], pick) == if pick(c).Some? then [pick(c).value] else []
  {
    assert [c][..0] == [];
  }

  /** Calls that `pick` reads no row from contribute none. */
  lemma {:induction false} RowsOfNone<R>(calls: seq<Call>, pick: Call -> Option<R>)
    requires forall k :: 0 <= k < |calls| ==> pick(calls[k]).None?
    ensures RowsOf(calls, pick) == []
    decreases |calls|
  {
    if calls != [] {
      RowsOfNone(calls[..|calls| - 1], pick);
    }
  }

  /** Each career round writes exactly one careers row, its own. */
  lemma CareerStepRows(actorId: string, c: Career, i: nat, answer: Answer)
    ensures RowsOf(CareerStep(actorId, c, i, answer).calls, CareerPick) == [CareerRowOf(actorId, c, i)]
  {
    var row := CareerRowOf(actorId, c, i);
    match answer
    case Failed(_) =>
      InsertThenOthers(row, []);
    case Row(id) =>
      InsertThenOthers(row, ChildInserts(|c.images| > 0, ImageRowsOf(id, c.images), |c.links| > 0, LinkRowsOf(id, c.links)));
  }

  /** A careers insert followed by calls that are not careers inserts carries that one row. */
  lemma InsertThenOthers(row: CareerRow, rest: seq<Call>)
    requires forall k :: 0 <= k < |rest| ==> !rest[k].InsertCareer?
    ensures RowsOf([InsertCareer(row)] + rest, CareerPick) == [row]
  {
    RowsOfSingleton(InsertCareer(row), CareerPick);
    RowsOfNone(rest, CareerPick);
    RowsOfAppend([InsertCareer(row)], rest, CareerPick);
  }

  /** Each video round writes exactly one videos row, its own, whatever the answer. */
  lemma VideoStepRows(actorId: string, v: Video, i: nat, answer: Answer)
    ensures RowsOf(VideoStep(actorId, v, i, answer).calls, VideoPick)
              == [VideoRow(actorId, v.category, v.project_name, v.year_label, i)]
  {
    var insert := [InsertVideo(VideoRow(actorId, v.category, v.project_name, v.year_label, i))];
    RowsOfSingleton(insert[0], VideoPick);
    var calls := VideoStep(actorId, v, i, answer).calls;
    if calls != insert {
      RowsOfSingleton(calls[1], VideoPick);
      assert calls == insert + [calls[1]];
      RowsOfAppend(insert, [calls[1]], VideoPick);
    }
  }

  /** Each editorial round writes exactly one editorials row, its own, whatever the answer. */
  lemma EditorialStepRows(actorId: string, e: Editorial, i: nat, answer: Answer)
    ensures RowsOf(EditorialStep(actorId, e, i, answer).calls, EditorialPick)
              == [EditorialRow(actorId, e.year_label, e.media_name, i)]
  {
    var insert := [InsertEditorial(EditorialRow(actorId, e.year_label, e.media_name, i))];
    RowsOfSingleton(insert[0], EditorialPick);
    var calls := EditorialStep(actorId, e, i, answer).calls;
    if calls != insert {
      RowsOfSingleton(calls[1], EditorialPick);
      assert calls == insert + [calls[1]];
      RowsOfAppend(insert, [calls[1]], EditorialPick);
    }
  }

  /**
   * For a loop whose round `i` writes the one row `rowOf(items[i], i)` to a table: however
   * the loop ends, the rows it wrote there are those of the first items in order, the
   * `k`-th numbered `k`, and every item has its row when no round threw.
   */
  lemma {:induction false} StepsRowsNumbered<T, R>(actorId: string, items: seq<T>, answers: seq<Answer>,
                                                  step: (string, T, nat, Answer) -> Run,
                                                  pick: Call -> Option<R>, rowOf: (T, nat) -> R, n: nat)
    requires n <= |items| == |answers|
    requires forall i: nat, a: Answer :: i < |items| ==>
               RowsOf(step(actorId, items[i], i, a).calls, pick) == [rowOf(items[i], i)]
    ensures var rows := RowsOf(Steps(actorId, items, answers, step, n).calls, pick);
            |rows| <= n && forall k :: 0 <= k < |rows| ==> rows[k] == rowOf(items[k], k)
    ensures Steps(actorId, items, answers, step, n).thrown.None? ==>
              |RowsOf(Steps(actorId, items, answers, step, n).calls, pick)| == n
    decreases n
  {
    if n > 0 {
      StepsRowsNumbered(actorId, items, answers, step, pick, rowOf, n - 1);
      var r := step(actorId, items[n - 1], n - 1, answers[n - 1]);
      assert RowsOf(r.calls, pick) == [rowOf(items[n - 1], n - 1)];
      StepRowsSnoc(actorId, items, answers, step, pick, n);
    }
  }

  /** One more round adds the rows its own calls carry, unless an earlier round threw. */
  lemma StepRowsSnoc<T, R>(actorId: string, items: seq<T>, answers: seq<Answer>,
                          step: (string, T, nat, Answer) -> Run, pick: Call -> Option<R>, n: nat)
    requires 0 < n <= |items| == |answers|
    ensures var before := Steps(actorId, items, answers, step, n - 1);
            var after := Steps(actorId, items, answers, step, n);
            var r := step(actorId, items[n - 1], n - 1, answers[n - 1]);
            && (before.thrown.Some? ==> after == before)
            && (before.thrown.None? ==> after.thrown == r.thrown)
            && (before.thrown.None? ==> RowsOf(after.calls, pick) == RowsOf(before.calls, pick) + RowsOf(r.calls, pick))
  {
    var before := Steps(actorId, items, answers, step, n - 1);
    if before.thrown.None? {
      var r := step(actorId, items[n - 1], n - 1, answers[n - 1]);
      RowsOfAppend(before.calls, r.calls, pick);
    }
  }

  /** The careers rows follow the list with `sort_order` 0, 1, 2, … and no gap. */
  lemma CareerRowsNumbered(actorId: string, careers: seq<Career>, answers: seq<Answer>)
    requires |careers| == |answers|
    ensures var run := Steps(actorId, careers, answers, CareerStep, |careers|);
            var rows := RowsOf(run.calls, CareerPick);
            |rows| <= |careers| && (forall k :: 0 <= k < |rows| ==> rows[k] == CareerRowOf(actorId, careers[k], k) && rows[k].sort_order == k)
            && (run.thrown.None? ==> |rows| == |careers|)
  {
    forall i: nat, a: Answer | i < |careers| {
      CareerStepRows(actorId, careers[i], i, a);
    }
    StepsRowsNumbered(actorId, careers, answers, CareerStep, CareerPick,
                      (c: Career, i: nat) => CareerRowOf(actorId, c, i), |careers|);
  }

  /** The videos rows follow the list with `sort_order` 0, 1, 2, … and no gap. */
  lemma VideoRowsNumbered(actorId: string, videos: seq<Video>, answers: seq<Answer>)
    requires |videos| == |answers|
    ensures var run := Steps(actorId, videos, answers, VideoStep, |videos|);
            var rows := RowsOf(run.calls, VideoPick);
            |rows| <= |videos| && (forall k :: 0 <= k < |rows| ==>
               rows[k] == VideoRow(actorId, videos[k].category, videos[k].project_name, videos[k].year_label, k))
            && (run.thrown.None? ==> |rows| == |videos|)
  {
    forall i: nat, a: Answer | i < |videos| {
      VideoStepRows(actorId, videos[i], i, a);
    }
    StepsRowsNumbered(actorId, videos, answers, VideoStep, VideoPick,
                      (v: Video, i: nat) => VideoRow(actorId, v.category, v.project_name, v.year_label, i), |videos|);
  }

  /** The editorials rows follow the list with `sort_order` 0, 1, 2, … and no gap. */
  lemma EditorialRowsNumbered(actorId: string, eds: seq<Editorial>, answers: seq<Answer>)
    requires |eds| == |answers|
    ensures var run := Steps(actorId, eds, answers, EditorialStep, |eds|);
            var rows := RowsOf(run.calls, EditorialPick);
            |rows| <= |eds| && (forall k :: 0 <= k < |rows| ==> rows[k] == EditorialRow(actorId, eds[k].year_label, eds[k].media_name, k))
            && (run.thrown.None? ==> |rows| == |eds|)
  {
    forall i: nat, a: Answer | i < |eds| {
      EditorialStepRows(actorId, eds[i], i, a);
    }
    StepsRowsNumbered(actorId, eds, answers, EditorialStep, EditorialPick,
                      (e: Editorial, i: nat) => EditorialRow(actorId, e.year_label, e.media_name, i), |eds|);
  }

  // ---- reloading a saved career ----

  /** What the three career tables hold for one saved career, child rows in `sort_order` order. */
  datatype StoredCareer = StoredCareer(row: CareerRow, links: seq<CareerLinkRow>, images: seq<CareerImageRow>)

  /** The tables after a successful `CareerStep` with id `careerId`. */
  function Stored(actorId: string, c: Career, i: nat, careerId: string): StoredCareer {
    StoredCareer(CareerRowOf(actorId, c, i), LinkRowsOf(careerId, c.links), ImageRowsOf(careerId, c.images))
  }

  /** The career as the edit query reads it: `select('*')` on careers alone, with no child rows. */
  function FetchCareerAsWritten(s: StoredCareer): CareerRecord {
    CareerRecord(s.row.category, s.row.sub_category, s.row.year_label, s.row.title, s.row.description,
                 s.row.role_image_url, None, None)
  }

  /** The career as a query that also embeds `career_links` and `career_images` reads it. */
  function FetchCareer(s: StoredCareer): (r: CareerRecord)
    ensures r.career_links.Some? && |r.career_links.value| == |s.links|
    ensures r.career_images.Some? && |r.career_images.value| == |s.images|
  {
    CareerRecord(
      s.row.category, s.row.sub_category, s.row.year_label, s.row.title, s.row.description, s.row.role_image_url,
      Some(seq(|s.links|, k requires 0 <= k < |s.links| => CareerLink(s.links[k].link_url, s.links[k].link_label))),
      Some(seq(|s.images|, k requires 0 <= k < |s.images| => CareerImage(s.images[k].image_url))))
  }

  /**
   * As written, reopening a saved actor shows each career without its links and stills,
   * even when the save wrote some; the next save then writes the career without them.
   */
  lemma ReloadDropsCareerChildren(actorId: string, c: Career, i: nat, careerId: string)
    requires |c.links| > 0 && forall k :: 0 <= k < |c.links| ==> NonBlankLink(c.links[k])
    ensures LoadCareer(FetchCareerAsWritten(Stored(actorId, c, i, careerId))).links == []
    ensures LoadCareer(FetchCareerAsWritten(Stored(actorId, c, i, careerId))).links != KeptLinks(c.links)
  {
    KeptLinksAll(c.links);
  }

  /**
   * With the child rows embedded, saving a career and reloading it gives the career back
   * with only its blank-URL links and stills dropped.
   */
  lemma ReloadCareerRoundTrip(actorId: string, c: Career, i: nat, careerId: string)
    ensures LoadCareer(FetchCareer(Stored(actorId, c, i, careerId)))
              == c.(links := KeptLinks(c.links), images := KeptImages(c.images))
  {
    var s := Stored(actorId, c, i, careerId);
    var r := LoadCareer(FetchCareer(s));
    OrNullOrEmpty(Some(c.sub_category));
    OrNullOrEmpty(Some(c.description));
    OrNullOrEmpty(Some(c.role_image_url));
    assert r.links == KeptLinks(c.links);
    assert r.images == KeptImages(c.images);
  }
}
