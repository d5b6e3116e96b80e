/** The reputation-keyword editor: a sortable list of keywords with a size select. */
module KeywordSection {
  import opened Lists
  import opened Entities
  import opened ReactState

  class Editor {
    const keywords: State<seq<Keyword>>

    constructor(cell: State<seq<Keyword>>)
      ensures keywords == cell
    {
      keywords := cell;
    }

    /** `n[i].keyword = v` on a copy of the list. */
    method EditKeyword(i: nat, v: string)
      requires i < |keywords.value|
      modifies keywords
      ensures keywords.value == old(keywords.value)[i := old(keywords.value)[i].(keyword := v)]
    {
      var n := keywords.value;
      n := n[i := n[i].(keyword := v)];
      keywords.Set(n);
    }

    /** `n[i].size_class = v` from the size select. */
    method EditSize(i: nat, v: string)
      requires i < |keywords.value|
      modifies keywords
      ensures keywords.value == old(keywords.value)[i := old(keywords.value)[i].(size_class := v)]
    {
      var n := keywords.value;
      n := n[i := n[i].(size_class := v)];
      keywords.Set(n);
    }

    method Remove(i: nat)
      modifies keywords
      ensures keywords.value == RemoveAt(old(keywords.value), i)
    {
      keywords.Set(RemoveAt(keywords.value, i));
    }

    /** "+ 키워드 추가": a blank medium-size keyword at the end. */
    method Append()
      modifies keywords
      ensures keywords.value == old(keywords.value) + [BlankKeyword]
    {
      keywords.Set(keywords.value + [BlankKeyword]);
    }
  }
}
