/**
 * The single-list career editor: every career in one sortable list, with field inputs,
 * a category select, the links of each career edited in place, and an append button.
 */
module CareerSection {
  import opened Lists
  import opened Entities
  import opened ReactState

  /** The editor: its handlers write the parent's `careers` cell through `setCareers`. */
  class Editor {
    const careers: State<seq<Career>>

    constructor(cell: State<seq<Career>>)
      ensures careers == cell
    {
      careers := cell;
    }

    /** `updateItem(i, { [f]: v })`, the category select included. */
    method UpdateItem(i: nat, f: CareerField, v: string)
      requires i < |careers.value|
      modifies careers
      ensures careers.value == old(careers.value)[i := CareerSet(old(careers.value)[i], f, v)]
    {
      var n := careers.value;
      n := n[i := CareerSet(n[i], f, v)];
      careers.Set(n);
    }

    method Remove(i: nat)
      modifies careers
      ensures careers.value == RemoveAt(old(careers.value), i)
    {
      careers.Set(RemoveAt(careers.value, i));
    }

    /** `n[i].links[li][f] = v` on a copy of the list. */
    method EditLink(i: nat, li: nat, f: LinkField, v: string)
      requires i < |careers.value| && li < |careers.value[i].links|
      modifies careers
      ensures careers.value == EditCareerLink(old(careers.value), i, li, f, v)
    {
      var n := careers.value;
      var links := n[i].links;
      n := n[i := n[i].(links := links[li := CareerLinkSet(links[li], f, v)])];
      careers.Set(n);
    }

    /** `n[i].links = n[i].links.filter((_, j) => j !== li)`. */
    method RemoveLink(i: nat, li: nat)
      requires i < |careers.value|
      modifies careers
      ensures careers.value == RemoveCareerLink(old(careers.value), i, li)
    {
      var n := careers.value;
      n := n[i := n[i].(links := RemoveAt(n[i].links, li))];
      careers.Set(n);
    }

    /** `n[i].links = [...n[i].links, { link_url: '', link_label: '' }]`. */
    method AddLink(i: nat)
      requires i < |careers.value|
      modifies careers
      ensures careers.value == AddCareerLink(old(careers.value), i)
    {
      var n := careers.value;
      n := n[i := n[i].(links := n[i].links + [BlankCareerLink])];
      careers.Set(n);
    }

    /** "+ 새로운 커리어 항목 추가하기": a blank drama/film career at the end. */
    method Append()
      modifies careers
      ensures careers.value == old(careers.value) + [BlankCareer("drama_film")]
    {
      careers.Set(careers.value + [BlankCareer("drama_film")]);
    }
  }
}
