/** The project-tag editor: a sortable list of tags with a style select. */
module TagSection {
  import opened Lists
  import opened Entities
  import opened ReactState

  class Editor {
    const tags: State<seq<Tag>>

    constructor(cell: State<seq<Tag>>)
      ensures tags == cell
    {
      tags := cell;
    }

    /** `n[i].tag_text = v` on a copy of the list. */
    method EditText(i: nat, v: string)
      requires i < |tags.value|
      modifies tags
      ensures tags.value == old(tags.value)[i := old(tags.value)[i].(tag_text := v)]
    {
      var n := tags.value;
      n := n[i := n[i].(tag_text := v)];
      tags.Set(n);
    }

    /** `n[i].tag_style = v` from the style select. */
    method EditStyle(i: nat, v: string)
      requires i < |tags.value|
      modifies tags
      ensures tags.value == old(tags.value)[i := old(tags.value)[i].(tag_style := v)]
    {
      var n := tags.value;
      n := n[i := n[i].(tag_style := v)];
      tags.Set(n);
    }

    method Remove(i: nat)
      modifies tags
      ensures tags.value == RemoveAt(old(tags.value), i)
    {
      tags.Set(RemoveAt(tags.value, i));
    }

    /** "+ 태그 추가": a blank normal tag at the end. */
    method Append()
      modifies tags
      ensures tags.value == old(tags.value) + [BlankTag]
    {
      tags.Set(tags.value + [BlankTag]);
    }
  }
}
