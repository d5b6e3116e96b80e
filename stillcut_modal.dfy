/**
 * The still-cut viewer of a career entry: it starts on the first image, steps with
 * wrap-around, and jumps to an image from its dot.
 */
module StillcutModal {
  import opened Entities
  import opened Carousel

  class Modal {
    const images: seq<CareerImage>
    var current: int

    /** `current` is an index of `images` (0 when there are none). */
    predicate Valid()
      reads this
    {
      if |images| == 0 then current == 0 else 0 <= current < |images|
    }

    constructor(images: seq<CareerImage>)
      ensures this.images == images && current == 0 && Valid()
    {
      this.images := images;
      current := 0;
    }

    /** Nothing is rendered for an entry without images. */
    predicate Renders()
      reads this
      ensures Valid() ==> (Renders() <==> 0 <= current < |images|)
    {
      |images| > 0
    }

    /** The previous/next buttons, present only when there is more than one image. */
    method Go(dir: int)
      requires dir == 1 || dir == -1
      requires Valid()
      modifies this
      ensures Valid()
      ensures |images| > 1 ==> current == Step(old(current), dir, |images|)
      ensures |images| <= 1 ==> current == old(current)
    {
      if |images| > 1 {
        current := Step(current, dir, |images|);
      }
    }

    /** The dots, one per image (also when there is only one): dot `i` shows image `i`. */
    method SelectDot(i: int)
      requires Valid()
      modifies this
      ensures Valid()
      ensures 0 <= i < |images| ==> current == i
      ensures !(0 <= i < |images|) ==> current == old(current)
    {
      if 0 <= i < |images| {
        current := i;
      }
    }

    /** The image shown and the `current+1 / n` counter. */
    function View(): (v: (string, int, int))
      requires Valid() && Renders()
      reads this
      ensures v.0 == images[current].image_url
      ensures 1 <= v.1 <= v.2 == |images|
    {
      (images[current].image_url, current + 1, |images|)
    }
  }
}
