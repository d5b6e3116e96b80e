/**
 * The admin's two-slot staff assignment for one actor: a sales contact and an
 * advertising contact, each either a staff id or the "no selection" sentinel.
 */
module StaffAssignmentSection {

  /** The select value meaning that no staff member is chosen. */
  const NONE := "__none__"
  const SalesType := "영업 담당"
  const AdType := "광고 담당"

  /** An assignment row as it is saved and loaded back (`staff_id`, `assignment_type`). */
  datatype Assignment = Assignment(staff_id: string, assignment_type: string)

  /** Position of the first row of the given type (the index `Array.prototype.find` stops at), or |rows|. */
  function FindType(rows: seq<Assignment>, t: string): (k: nat)
    ensures k <= |rows|
    ensures k < |rows| ==> rows[k].assignment_type == t
    ensures forall j :: 0 <= j < k ==> rows[j].assignment_type != t
  {
    if rows == [] then 0
    else if rows[0].assignment_type == t then 0
    else 1 + FindType(rows[1..], t)
  }

  /**
   * `found?.staff_id || NONE`: the staff id of the first row of type `t`, or the sentinel
   * when there is no such row or its id is empty.
   */
  function Resolve(rows: seq<Assignment>, t: string): (id: string)
    ensures id != ""
    ensures (forall j :: 0 <= j < |rows| ==> rows[j].assignment_type != t) ==> id == NONE
    ensures id != NONE ==> exists j :: 0 <= j < |rows| && rows[j].assignment_type == t && rows[j].staff_id == id
    ensures forall k :: 0 <= k < |rows| && rows[k].assignment_type == t &&
                        (forall j :: 0 <= j < k ==> rows[j].assignment_type != t) ==>
                          id == (if rows[k].staff_id == "" then NONE else rows[k].staff_id)
  {
    var k := FindType(rows, t);
    if k == |rows| || rows[k].staff_id == "" then NONE else rows[k].staff_id
  }

  /**
   * The list `handleSave` builds: a sales entry when sales is chosen, then an advertising
   * entry when advertising is chosen.
   */
  function SaveList(sales: string, ad: string): (list: seq<Assignment>)
    ensures |list| <= 2
    ensures forall e :: e in list ==> e.staff_id != NONE && (e.assignment_type == SalesType || e.assignment_type == AdType)
    ensures Assignment(sales, SalesType) in list <==> sales != NONE
    ensures Assignment(ad, AdType) in list <==> ad != NONE
    ensures forall e :: e in list ==> e == Assignment(sales, SalesType) || e == Assignment(ad, AdType)
    ensures sales != NONE ==> list[0] == Assignment(sales, SalesType)
  {
    (if sales != NONE then [Assignment(sales, SalesType)] else [])
      + (if ad != NONE then [Assignment(ad, AdType)] else [])
  }

  /** When exactly one row has type `t`, resolving `t` gives that row's id (the sentinel for an empty id). */
  lemma {:induction false} ResolveSingle(rows: seq<Assignment>, t: string, e: Assignment)
    requires e in rows && e.assignment_type == t
    requires forall r :: r in rows && r.assignment_type == t ==> r == e
    ensures Resolve(rows, t) == (if e.staff_id == "" then NONE else e.staff_id)
  {
    var k := FindType(rows, t);
    if k < |rows| {
      assert rows[k] in rows;
    }
  }

  /**
   * With two rows of one type the first decides, even when its id is empty and the later
   * one names a staff member.
   */
  lemma FirstRowDecides(t: string, later: string)
    requires later != ""
    ensures Resolve([Assignment("", t), Assignment(later, t)], t) == NONE
    ensures Resolve([Assignment("a", t), Assignment(later, t)], t) == "a"
  {
  }

  /**
   * Round trip: loading the rows that a save stored, in whatever order the database
   * returns them, gives back both selections, provided neither id is empty.
   */
  lemma SaveLoadRoundTrip(sales: string, ad: string, loaded: seq<Assignment>)
    requires sales != "" && ad != ""
    requires multiset(loaded) == multiset(SaveList(sales, ad))
    ensures Resolve(loaded, SalesType) == sales
    ensures Resolve(loaded, AdType) == ad
  {
    var list := SaveList(sales, ad);
    forall r | r in loaded ensures r in list {
      assert r in multiset(loaded);
    }
    if sales != NONE {
      assert Assignment(sales, SalesType) in multiset(loaded);
      ResolveSingle(loaded, SalesType, Assignment(sales, SalesType));
    }
    if ad != NONE {
      assert Assignment(ad, AdType) in multiset(loaded);
      ResolveSingle(loaded, AdType, Assignment(ad, AdType));
    }
  }

  class StaffAssignmentForm {
    var salesStaffId: string
    var adStaffId: string

    /** Both selections start as the sentinel. */
    constructor()
      ensures salesStaffId == NONE && adStaffId == NONE
    {
      salesStaffId := NONE;
      adStaffId := NONE;
    }

    /** The load effect: nothing happens until the assignments are there; then each slot is resolved by its type. */
    method Load(assignments: seq<Assignment>, loaded: bool)
      modifies this
      ensures !loaded ==> salesStaffId == old(salesStaffId) && adStaffId == old(adStaffId)
      ensures loaded ==> salesStaffId == Resolve(assignments, SalesType) && adStaffId == Resolve(assignments, AdType)
    {
      if !loaded {
        return;
      }
      salesStaffId := Resolve(assignments, SalesType);
      adStaffId := Resolve(assignments, AdType);
    }

    method SelectSales(v: string)
      modifies this
      ensures salesStaffId == v && adStaffId == old(adStaffId)
    {
      salesStaffId := v;
    }

    method SelectAd(v: string)
      modifies this
      ensures adStaffId == v && salesStaffId == old(salesStaffId)
    {
      adStaffId := v;
    }

    /** `handleSave`'s list, built by pushes; the state is not changed. */
    method Save() returns (list: seq<Assignment>)
      ensures list == SaveList(salesStaffId, adStaffId)
    {
      list := [];
      if salesStaffId != NONE {
        list := list + [Assignment(salesStaffId, SalesType)];
      }
      if adStaffId != NONE {
        list := list + [Assignment(adStaffId, AdType)];
      }
    }
  }
}
