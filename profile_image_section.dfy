/** The profile-picture editor: a sortable list of image URLs. */
module ProfileImageSection {
  import opened Lists
  import opened Entities
  import opened ReactState

  class Editor {
    const images: State<seq<Image>>

    constructor(cell: State<seq<Image>>)
      ensures images == cell
    {
      images := cell;
    }

    /** `n[i].image_url = v` on a copy of the list. */
    method EditUrl(i: nat, v: string)
      requires i < |images.value|
      modifies images
      ensures images.value == old(images.value)[i := Image(v)]
    {
      var n := images.value;
      n := n[i := n[i].(image_url := v)];
      images.Set(n);
    }

    method Remove(i: nat)
      modifies images
      ensures images.value == RemoveAt(old(images.value), i)
    {
      images.Set(RemoveAt(images.value, i));
    }

    /** "+ 프로필 사진 추가": a blank URL at the end. */
    method Append()
      modifies images
      ensures images.value == old(images.value) + [BlankImage]
    {
      images.Set(images.value + [BlankImage]);
    }
  }
}
