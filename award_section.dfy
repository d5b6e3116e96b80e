/** The award editor: a sortable list of awards with a profile checkbox and text inputs. */
module AwardSection {
  import opened Lists
  import opened Entities
  import opened ReactState

  class Editor {
    const awards: State<seq<Award>>

    constructor(cell: State<seq<Award>>)
      ensures awards == cell
    {
      awards := cell;
    }

    /** `updateItem(i, { [f]: v })` from the year, title and video inputs. */
    method UpdateItem(i: nat, f: AwardField, v: string)
      requires i < |awards.value|
      modifies awards
      ensures awards.value == old(awards.value)[i := AwardSet(old(awards.value)[i], f, v)]
    {
      var n := awards.value;
      n := n[i := AwardSet(n[i], f, v)];
      awards.Set(n);
    }

    /** The "표시" checkbox: `updateItem(i, { show_on_profile: checked })`. */
    method SetShowOnProfile(i: nat, checked: bool)
      requires i < |awards.value|
      modifies awards
      ensures awards.value == old(awards.value)[i := old(awards.value)[i].(show_on_profile := checked)]
    {
      var n := awards.value;
      n := n[i := n[i].(show_on_profile := checked)];
      awards.Set(n);
    }

    method Remove(i: nat)
      modifies awards
      ensures awards.value == RemoveAt(old(awards.value), i)
    {
      awards.Set(RemoveAt(awards.value, i));
    }

    /** "+ 수상 내역 추가": a blank award shown on the profile, at the end. */
    method Append()
      modifies awards
      ensures awards.value == old(awards.value) + [BlankAward]
    {
      awards.Set(awards.value + [BlankAward]);
    }
  }
}
