/**
 * The profile picture carousel: the actor's images (or the fallback picture) with a
 * counter badge, a full-screen viewer with previous/next buttons and dots, and keyboard
 * navigation while the viewer is open.
 */
module ImageCarousel {
  import opened Wrappers
  import opened Text
  import opened Entities
  import opened Carousel

  /**
   * `allImages`: the image URLs when there are images; otherwise the fallback URL alone
   * when it is truthy; otherwise nothing.
   */
  function AllImages(images: seq<Image>, fallbackUrl: Option<string>): (all: seq<string>)
    ensures |images| > 0 ==> |all| == |images| && forall i :: 0 <= i < |images| ==> all[i] == images[i].image_url
    ensures |images| == 0 && Present(fallbackUrl) ==> all == [fallbackUrl.value]
    ensures |images| == 0 && !Present(fallbackUrl) ==> all == []
  {
    if |images| > 0 then seq(|images|, i requires 0 <= i < |images| => images[i].image_url)
    else if Present(fallbackUrl) then [fallbackUrl.value]
    else []
  }

  /** The carousel is empty exactly when there are no images and no truthy fallback. */
  lemma AllImagesEmpty(images: seq<Image>, fallbackUrl: Option<string>)
    ensures AllImages(images, fallbackUrl) == [] <==> images == [] && !Present(fallbackUrl)
    ensures |AllImages(images, fallbackUrl)| <= 1 ==> |images| <= 1
  {
    if images != [] {
      assert |AllImages(images, fallbackUrl)| == |images|;
    }
  }

  /** The placeholder text for an empty carousel: `fallbackInitial || '?'`. */
  function Placeholder(fallbackInitial: Option<string>): (text: string)
    ensures text != ""
    ensures Present(fallbackInitial) ==> text == fallbackInitial.value
    ensures !Present(fallbackInitial) ==> text == "?"
  {
    if Present(fallbackInitial) then fallbackInitial.value else "?"
  }

  /** The `current+1/n` badge, shown only when there is more than one image. */
  function Badge(current: int, n: nat): (b: Option<(int, nat)>)
    ensures b.Some? <==> n > 1
    ensures b.Some? ==> b.value.1 == n && b.value.0 - 1 == current
  {
    if n > 1 then Some((current + 1, n)) else None
  }

  /** On a valid index the badge reads a position between 1 and the count. */
  lemma BadgeInRange(current: int, n: nat)
    requires 0 <= current < n && n > 1
    ensures Badge(current, n).Some? && 1 <= Badge(current, n).value.0 <= Badge(current, n).value.1
  {
  }

  /**
   * The right arrow key computes `(prev + 1) % n` rather than `go(1)`'s
   * `(prev + 1 + n) % n`; from every valid index the two agree.
   */
  lemma ArrowRightIsStep(current: int, n: int)
    requires n > 0 && 0 <= current < n
    ensures JsRem(current + 1, n) == Step(current, 1, n)
  {
    assert JsRem(current + 1, n) == Step(current + 1 - n, 0, n);
  }

  class CarouselView {
    const allImages: seq<string>
    var current: int
    var isViewerOpen: bool

    /** `current` is a valid index, and stays 0 when there are no images. */
    predicate Valid()
      reads this
    {
      if |allImages| == 0 then current == 0 else 0 <= current < |allImages|
    }

    constructor(images: seq<Image>, fallbackUrl: Option<string>)
      ensures allImages == AllImages(images, fallbackUrl)
      ensures current == 0 && !isViewerOpen
      ensures Valid()
    {
      allImages := AllImages(images, fallbackUrl);
      current := 0;
      isViewerOpen := false;
    }

    /** Clicking the picture opens the viewer; with no images there is no picture to click. */
    method OpenViewer()
      modifies this
      ensures isViewerOpen == (old(isViewerOpen) || |allImages| > 0)
      ensures current == old(current)
    {
      if |allImages| > 0 {
        isViewerOpen := true;
      }
    }

    /** The backdrop and the close button close the viewer. */
    method CloseViewer()
      modifies this
      ensures !isViewerOpen && current == old(current)
    {
      isViewerOpen := false;
    }

    /** The previous/next buttons: `go(dir)`, present only in the open viewer with more than one image. */
    method Go(dir: int)
      requires dir == 1 || dir == -1
      requires Valid()
      modifies this
      ensures Valid()
      ensures isViewerOpen == old(isViewerOpen)
      ensures isViewerOpen && |allImages| > 1 ==> current == Step(old(current), dir, |allImages|)
      ensures !(isViewerOpen && |allImages| > 1) ==> current == old(current)
    {
      if isViewerOpen && |allImages| > 1 {
        current := Step(current, dir, |allImages|);
      }
    }

    /** The dots of the open viewer (more than one image): dot `i` shows image `i`. */
    method SelectDot(i: int)
      requires Valid()
      modifies this
      ensures Valid()
      ensures isViewerOpen == old(isViewerOpen)
      ensures isViewerOpen && |allImages| > 1 && 0 <= i < |allImages| ==> current == i
      ensures !(isViewerOpen && |allImages| > 1 && 0 <= i < |allImages|) ==> current == old(current)
    {
      if isViewerOpen && |allImages| > 1 && 0 <= i < |allImages| {
        current := i;
      }
    }

    /**
     * The key listener, installed only while the viewer is open and there is more than
     * one image: Escape closes the viewer, the arrow keys step back and forth with wrap-around.
     */
    method KeyDown(key: string)
      requires Valid()
      modifies this
      ensures Valid()
      ensures !(old(isViewerOpen) && |allImages| > 1) ==> isViewerOpen == old(isViewerOpen) && current == old(current)
      ensures old(isViewerOpen) && |allImages| > 1 ==>
                && isViewerOpen == (key != "Escape")
                && current == (if key == "ArrowLeft" then Step(old(current), -1, |allImages|)
                               else if key == "ArrowRight" then JsRem(old(current) + 1, |allImages|)
                               else old(current))
    {
      if !isViewerOpen || |allImages| <= 1 {
        return;
      }
      var n := |allImages|;
      if key == "Escape" {
        isViewerOpen := false;
      }
      if key == "ArrowLeft" {
        current := Step(current, -1, n);
      }
      if key == "ArrowRight" {
        current := JsRem(current + 1, n);
      }
    }
  }
}
