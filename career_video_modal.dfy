/**
 * The video player opened from a career entry: it starts on the link that was clicked,
 * steps through the entry's links with wrap-around, and plays the current link only when
 * a YouTube id can be read from it.
 */
module CareerVideoModal {
  import opened Wrappers
  import opened Entities
  import opened Carousel
  import YouTube

  const EmbedPrefix := "https://www.youtube.com/embed/"
  const EmbedSuffix := "?autoplay=1"

  /** The heading: `link_label || '플레이어'`. */
  function Heading(link: CareerLink): (title: string)
    ensures title != ""
    ensures link.link_label != "" ==> title == link.link_label
    ensures link.link_label == "" ==> title == "플레이어"
  {
    if link.link_label != "" then link.link_label else "플레이어"
  }

  /** The player's address for a link, or nothing when no id can be read (the invalid-link message). */
  function PlayerUrl(link: CareerLink): (url: Option<string>)
    ensures url.None? <==> YouTube.GetYouTubeId(link.link_url).None?
    ensures url.Some? ==> url.value == EmbedPrefix + YouTube.GetYouTubeId(link.link_url).value + EmbedSuffix
  {
    var id := YouTube.GetYouTubeId(link.link_url);
    if id.Some? && id.value != "" then Some(EmbedPrefix + id.value + EmbedSuffix) else None
  }

  /** The embedded player always shows the id read from the link, between the fixed prefix and suffix. */
  lemma PlayerUrlCarriesId(link: CareerLink)
    requires PlayerUrl(link).Some?
    ensures var url := PlayerUrl(link).value;
            var id := YouTube.GetYouTubeId(link.link_url).value;
            && |url| == |EmbedPrefix| + |id| + |EmbedSuffix|
            && url[..|EmbedPrefix|] == EmbedPrefix
            && url[|EmbedPrefix|..|EmbedPrefix| + |id|] == id
  {
    var url := PlayerUrl(link).value;
    var id := YouTube.GetYouTubeId(link.link_url).value;
    assert url == EmbedPrefix + id + EmbedSuffix;
    assert url[..|EmbedPrefix|] == EmbedPrefix;
    assert url[|EmbedPrefix|..|EmbedPrefix| + |id|] == id;
  }

  class Modal {
    const links: seq<CareerLink>
    var current: int

    /** `useState(initialIndex)`: the index is taken as given, without clamping. */
    constructor(links: seq<CareerLink>, initialIndex: int)
      ensures this.links == links && current == initialIndex
    {
      this.links := links;
      current := initialIndex;
    }

    /** Nothing is rendered for an entry without links. */
    predicate Renders()
      reads this
      ensures 0 <= current < |links| ==> Renders()
      ensures !Renders() ==> links == []
    {
      |links| > 0
    }

    /**
     * The previous/next buttons, present only when there is more than one link. From a
     * valid index they stay in range; from an initial index past the end one step
     * already brings the player back into range.
     */
    method Go(dir: int)
      requires dir == 1 || dir == -1
      modifies this
      ensures |links| > 1 ==> current == Step(old(current), dir, |links|)
      ensures |links| > 1 && old(current) >= 0 ==> 0 <= current < |links|
      ensures |links| <= 1 ==> current == old(current)
    {
      if |links| > 1 {
        current := Step(current, dir, |links|);
      }
    }

    /** The heading, the player and the `current+1 / n` counter for a valid index. */
    function View(): (v: (string, Option<string>, int, int))
      requires 0 <= current < |links|
      reads this
      ensures v.0 == Heading(links[current]) && v.1 == PlayerUrl(links[current])
      ensures 1 <= v.2 <= v.3 == |links|
    {
      (Heading(links[current]), PlayerUrl(links[current]), current + 1, |links|)
    }
  }
}
