/**
 * The actor edit page: one `useState` cell per block of the form, the load effect, every
 * input and button of the editors (`updateItem` on a copy, removal by index, the nested
 * link/still/media edits and the append buttons), and `handleSave`.
 */
module AdminActorForm {
  import opened Wrappers
  import opened Lists
  import opened Entities
  import opened ReactState
  import opened Toasts
  import opened ActorFormData
  import opened ActorSave

  const RequiredToast := Toast("오류", Some("이름과 슬러그는 필수입니다."), true)
  const SavedToast := Toast("저장 완료", None, false)

  /** The toast that ends a save. */
  function OutcomeToast(o: Outcome): (t: Toast)
    ensures t.destructive <==> !o.Saved?
    ensures o.Stopped? ==> t.description == Some(o.message)
  {
    match o
    case Refused => RequiredToast
    case Saved => SavedToast
    case Stopped(m) => Toast("오류", Some(m), true)
  }

  class Page {
    const form: State<Form>
    const careers: State<seq<Career>>
    const insight: State<Insight>
    const keywords: State<seq<Keyword>>
    const videos: State<seq<Video>>
    const awards: State<seq<Award>>
    const tags: State<seq<Tag>>
    const images: State<seq<Image>>
    const editorials: State<seq<Editorial>>
    const saving: State<bool>

    /** The initial state: an empty form, an empty insight block, no items, not saving. */
    constructor()
      ensures form.value == EmptyForm && insight.value == EmptyInsight && !saving.value
      ensures careers.value == [] && keywords.value == [] && videos.value == [] && awards.value == []
      ensures tags.value == [] && images.value == [] && editorials.value == []
    {
      form := new State(EmptyForm);
      careers := new State([]);
      insight := new State(EmptyInsight);
      keywords := new State([]);
      videos := new State([]);
      awards := new State([]);
      tags := new State([]);
      images := new State([]);
      editorials := new State([]);
      saving := new State(false);
    }

    /** What `handleSave` reads. */
    function Snapshot(): Draft
      reads form, careers, insight, keywords, videos, awards, tags, images, editorials
    {
      Draft(form.value, careers.value, insight.value, keywords.value, videos.value, awards.value,
            tags.value, images.value, editorials.value)
    }

    /**
     * The load effect: nothing before the record arrives; then every cell is set from it,
     * except that the insight block keeps its state when the record has no insights row.
     */
    method Load(existing: Option<ActorRecord>)
      modifies form, careers, insight, keywords, videos, awards, tags, images, editorials
      ensures existing.None? ==> Snapshot() == old(Snapshot())
      ensures existing.Some? ==>
                var l := ActorFormData.Load(existing.value);
                && form.value == l.form && careers.value == l.careers && keywords.value == l.keywords
                && videos.value == l.videos && awards.value == l.awards && tags.value == l.tags
                && images.value == l.images && editorials.value == l.editorials
                && insight.value == (if l.insight.Some? then l.insight.value else old(insight.value))
    {
      if existing.None? {
        return;
      }
      var l := ActorFormData.Load(existing.value);
      Apply(l);
    }

    /** The setter calls of the load effect, the insight one only when an insights row came. */
    method Apply(l: Loaded)
      modifies form, careers, insight, keywords, videos, awards, tags, images, editorials
      ensures form.value == l.form && careers.value == l.careers && keywords.value == l.keywords
      ensures videos.value == l.videos && awards.value == l.awards && tags.value == l.tags
      ensures images.value == l.images && editorials.value == l.editorials
      ensures insight.value == (if l.insight.Some? then l.insight.value else old(insight.value))
    {
      form.Set(l.form);
      careers.Set(l.careers);
      if l.insight.Some? {
        insight.Set(l.insight.value);
      }
      keywords.Set(l.keywords);
      ApplyLists(l);
    }

    /** The setter calls after the keywords one. */
    method ApplyLists(l: Loaded)
      modifies videos, awards, tags, images, editorials
      ensures videos.value == l.videos && awards.value == l.awards && tags.value == l.tags
      ensures images.value == l.images && editorials.value == l.editorials
    {
      videos.Set(l.videos);
      awards.Set(l.awards);
      tags.Set(l.tags);
      images.Set(l.images);
      editorials.Set(l.editorials);
    }

    /** A basic-information input. */
    method EditForm(k: FormField, v: string)
      modifies form
      ensures form.value == FormSet(old(form.value), k, v)
    {
      form.Set(FormSet(form.value, k, v));
    }

    /** A market-insight input. */
    method EditInsight(k: InsightField, v: string)
      modifies insight
      ensures insight.value == InsightSet(old(insight.value), k, v)
    {
      insight.Set(InsightSet(insight.value, k, v));
    }

    // ---- profile images ----

    method EditImage(i: nat, v: string)
      requires i < |images.value|
      modifies images
      ensures images.value == old(images.value)[i := Image(v)]
    {
      images.Set(images.value[i := Image(v)]);
    }

    method RemoveImage(i: nat)
      modifies images
      ensures images.value == RemoveAt(old(images.value), i)
    {
      images.Set(RemoveAt(images.value, i));
    }

    method AddImage()
      modifies images
      ensures images.value == old(images.value) + [BlankImage]
    {
      images.Set(images.value + [BlankImage]);
    }

    // ---- careers ----

    /** `updateItem(careers, i, { [f]: v }, setCareers)`. */
    method EditCareer(i: nat, f: CareerField, v: string)
      requires i < |careers.value|
      modifies careers
      ensures careers.value == old(careers.value)[i := CareerSet(old(careers.value)[i], f, v)]
    {
      careers.Set(careers.value[i := CareerSet(careers.value[i], f, v)]);
    }

    method RemoveCareer(i: nat)
      modifies careers
      ensures careers.value == RemoveAt(old(careers.value), i)
    {
      careers.Set(RemoveAt(careers.value, i));
    }

    method EditCareerLink(i: nat, li: nat, f: LinkField, v: string)
      requires i < |careers.value| && li < |careers.value[i].links|
      modifies careers
      ensures careers.value == Entities.EditCareerLink(old(careers.value), i, li, f, v)
    {
      careers.Set(Entities.EditCareerLink(careers.value, i, li, f, v));
    }

    method RemoveCareerLink(i: nat, li: nat)
      requires i < |careers.value|
      modifies careers
      ensures careers.value == Entities.RemoveCareerLink(old(careers.value), i, li)
    {
      careers.Set(Entities.RemoveCareerLink(careers.value, i, li));
    }

    method AddCareerLink(i: nat)
      requires i < |careers.value|
      modifies careers
      ensures careers.value == Entities.AddCareerLink(old(careers.value), i)
    {
      careers.Set(Entities.AddCareerLink(careers.value, i));
    }

    method EditCareerImage(i: nat, ii: nat, v: string)
      requires i < |careers.value| && ii < |careers.value[i].images|
      modifies careers
      ensures careers.value == Entities.EditCareerImage(old(careers.value), i, ii, v)
    {
      careers.Set(Entities.EditCareerImage(careers.value, i, ii, v));
    }

    method RemoveCareerImage(i: nat, ii: nat)
      requires i < |careers.value|
      modifies careers
      ensures careers.value == Entities.RemoveCareerImage(old(careers.value), i, ii)
    {
      careers.Set(Entities.RemoveCareerImage(careers.value, i, ii));
    }

    method AddCareerImage(i: nat)
      requires i < |careers.value|
      modifies careers
      ensures careers.value == Entities.AddCareerImage(old(careers.value), i)
    {
      careers.Set(Entities.AddCareerImage(careers.value, i));
    }

    /** "+ 새로운 커리어 항목 추가하기": a blank drama/film career. */
    method AddCareer()
      modifies careers
      ensures careers.value == old(careers.value) + [BlankCareer("drama_film")]
    {
      careers.Set(careers.value + [BlankCareer("drama_film")]);
    }

    // ---- keywords ----

    method EditKeyword(i: nat, v: string)
      requires i < |keywords.value|
      modifies keywords
      ensures keywords.value == old(keywords.value)[i := old(keywords.value)[i].(keyword := v)]
    {
      keywords.Set(keywords.value[i := keywords.value[i].(keyword := v)]);
    }

    method EditKeywordSize(i: nat, v: string)
      requires i < |keywords.value|
      modifies keywords
      ensures keywords.value == old(keywords.value)[i := old(keywords.value)[i].(size_class := v)]
    {
      keywords.Set(keywords.value[i := keywords.value[i].(size_class := v)]);
    }

    method RemoveKeyword(i: nat)
      modifies keywords
      ensures keywords.value == RemoveAt(old(keywords.value), i)
    {
      keywords.Set(RemoveAt(keywords.value, i));
    }

    method AddKeyword()
      modifies keywords
      ensures keywords.value == old(keywords.value) + [BlankKeyword]
    {
      keywords.Set(keywords.value + [BlankKeyword]);
    }

    // ---- visual archive ----

    method EditVideo(i: nat, f: VideoField, v: string)
      requires i < |videos.value|
      modifies videos
      ensures videos.value == old(videos.value)[i := VideoSet(old(videos.value)[i], f, v)]
    {
      videos.Set(videos.value[i := VideoSet(videos.value[i], f, v)]);
    }

    method RemoveVideo(i: nat)
      modifies videos
      ensures videos.value == RemoveAt(old(videos.value), i)
    {
      videos.Set(RemoveAt(videos.value, i));
    }

    method EditVideoLink(i: nat, li: nat, f: LinkField, v: string)
      requires i < |videos.value| && li < |videos.value[i].links|
      modifies videos
      ensures videos.value == Entities.EditVideoLink(old(videos.value), i, li, f, v)
    {
      videos.Set(Entities.EditVideoLink(videos.value, i, li, f, v));
    }

    method RemoveVideoLink(i: nat, li: nat)
      requires i < |videos.value|
      modifies videos
      ensures videos.value == Entities.RemoveVideoLink(old(videos.value), i, li)
    {
      videos.Set(Entities.RemoveVideoLink(videos.value, i, li));
    }

    method AddVideoLink(i: nat)
      requires i < |videos.value|
      modifies videos
      ensures videos.value == Entities.AddVideoLink(old(videos.value), i)
    {
      videos.Set(Entities.AddVideoLink(videos.value, i));
    }

    method AddVideo()
      modifies videos
      ensures videos.value == old(videos.value) + [BlankVideo]
    {
      videos.Set(videos.value + [BlankVideo]);
    }

    // ---- editorials ----

    method EditEditorial(i: nat, f: EditorialField, v: string)
      requires i < |editorials.value|
      modifies editorials
      ensures editorials.value == old(editorials.value)[i := EditorialSet(old(editorials.value)[i], f, v)]
    {
      editorials.Set(editorials.value[i := EditorialSet(editorials.value[i], f, v)]);
    }

    method RemoveEditorial(i: nat)
      modifies editorials
      ensures editorials.value == RemoveAt(old(editorials.value), i)
    {
      editorials.Set(RemoveAt(editorials.value, i));
    }

    method EditMediaType(i: nat, mi: nat, t: MediaType)
      requires i < |editorials.value| && mi < |editorials.value[i].media|
      modifies editorials
      ensures editorials.value ==
                EditMedia(old(editorials.value), i, mi, old(editorials.value)[i].media[mi].(media_type := t))
    {
      editorials.Set(EditMedia(editorials.value, i, mi, editorials.value[i].media[mi].(media_type := t)));
    }

    method EditMediaUrl(i: nat, mi: nat, v: string)
      requires i < |editorials.value| && mi < |editorials.value[i].media|
      modifies editorials
      ensures editorials.value ==
                EditMedia(old(editorials.value), i, mi, old(editorials.value)[i].media[mi].(media_url := v))
    {
      editorials.Set(EditMedia(editorials.value, i, mi, editorials.value[i].media[mi].(media_url := v)));
    }

    method RemoveMedia(i: nat, mi: nat)
      requires i < |editorials.value|
      modifies editorials
      ensures editorials.value == Entities.RemoveMedia(old(editorials.value), i, mi)
    {
      editorials.Set(Entities.RemoveMedia(editorials.value, i, mi));
    }

    method AddMedia(i: nat)
      requires i < |editorials.value|
      modifies editorials
      ensures editorials.value == Entities.AddMedia(old(editorials.value), i)
    {
      editorials.Set(Entities.AddMedia(editorials.value, i));
    }

    method AddEditorial()
      modifies editorials
      ensures editorials.value == old(editorials.value) + [BlankEditorial]
    {
      editorials.Set(editorials.value + [BlankEditorial]);
    }

    // ---- awards ----

    /** The "프로필 노출" checkbox. */
    method SetShowOnProfile(i: nat, checked: bool)
      requires i < |awards.value|
      modifies awards
      ensures awards.value == old(awards.value)[i := old(awards.value)[i].(show_on_profile := checked)]
    {
      awards.Set(awards.value[i := awards.value[i].(show_on_profile := checked)]);
    }

    method EditAward(i: nat, f: AwardField, v: string)
      requires i < |awards.value|
      modifies awards
      ensures awards.value == old(awards.value)[i := AwardSet(old(awards.value)[i], f, v)]
    {
      awards.Set(awards.value[i := AwardSet(awards.value[i], f, v)]);
    }

    method RemoveAward(i: nat)
      modifies awards
      ensures awards.value == RemoveAt(old(awards.value), i)
    {
      awards.Set(RemoveAt(awards.value, i));
    }

    method AddAward()
      modifies awards
      ensures awards.value == old(awards.value) + [BlankAward]
    {
      awards.Set(awards.value + [BlankAward]);
    }

    // ---- tags ----

    method EditTagText(i: nat, v: string)
      requires i < |tags.value|
      modifies tags
      ensures tags.value == old(tags.value)[i := old(tags.value)[i].(tag_text := v)]
    {
      tags.Set(tags.value[i := tags.value[i].(tag_text := v)]);
    }

    method EditTagStyle(i: nat, v: string)
      requires i < |tags.value|
      modifies tags
      ensures tags.value == old(tags.value)[i := old(tags.value)[i].(tag_style := v)]
    {
      tags.Set(tags.value[i := tags.value[i].(tag_style := v)]);
    }

    method RemoveTag(i: nat)
      modifies tags
      ensures tags.value == RemoveAt(old(tags.value), i)
    {
      tags.Set(RemoveAt(tags.value, i));
    }

    method AddTag()
      modifies tags
      ensures tags.value == old(tags.value) + [BlankTag]
    {
      tags.Set(tags.value + [BlankTag]);
    }

    // ---- saving ----

    /**
     * `handleSave`: refused by the guard it raises the warning and leaves `saving` alone;
     * otherwise it writes the form, raises the toast of how it ended, goes back to the
     * admin list only on success, and clears `saving` in the `finally` block.
     */
    method HandleSave(isNew: bool, id: string, ans: Answers) returns (calls: seq<Call>, toast: Toast, navigateTo: Option<string>)
      requires |ans.careers| == |careers.value| && |ans.videos| == |videos.value|
      requires |ans.editorials| == |editorials.value|
      modifies saving
      ensures calls == Save(isNew, id, Snapshot(), ans).calls
      ensures toast == OutcomeToast(Save(isNew, id, Snapshot(), ans).outcome)
      ensures navigateTo.Some? <==> Save(isNew, id, Snapshot(), ans).outcome.Saved?
      ensures navigateTo.Some? ==> navigateTo.value == "/admin"
      ensures Save(isNew, id, Snapshot(), ans).outcome.Refused? ==> saving.value == old(saving.value)
      ensures !Save(isNew, id, Snapshot(), ans).outcome.Refused? ==> !saving.value
    {
      var outcome;
      calls, outcome := Persist(isNew, id, Snapshot(), ans);
      toast := OutcomeToast(outcome);
      if outcome.Refused? {
        return calls, toast, None;
      }
      saving.Set(true);
      saving.Set(false);
      navigateTo := if outcome.Saved? then Some("/admin") else None;
    }
  }
}
