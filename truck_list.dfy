/**
 * The per-truck freight lists of src/components/forms/freight/_components/TruckList.tsx:
 * a map from truck id to that truck's freights, a freight appended under a
 * fresh id or replaced in place by id, and the copy handed to the edit form.
 */
module TruckList {
  import opened Wrappers
  import opened Freight

  /** Which freight the edit form is open on. */
  datatype EditTarget = EditTarget(truckId: string, freightId: string)

  /** `prev[truckId] || []`. */
  function ListOf(m: map<string, seq<Freight>>, truckId: string): (r: seq<Freight>)
    ensures truckId in m ==> r == m[truckId]
    ensures truckId !in m ==> r == []
  {
    if truckId in m then m[truckId] else []
  }

  /** The map after `handleAddFreight`: the truck's list gains the freight at its end; no other truck changes. */
  function WithFreightAdded(m: map<string, seq<Freight>>, truckId: string, f: NewFreight, freshId: string)
    : (r: map<string, seq<Freight>>)
    ensures truckId in r && r[truckId] == ListOf(m, truckId) + [Freight(freshId, f.destinations, f.details)]
    ensures forall t :: t != truckId ==> (t in r <==> t in m) && (t in m ==> r[t] == m[t])
  {
    m[truckId := ListOf(m, truckId) + [Freight(freshId, f.destinations, f.details)]]
  }

  /** `list.map(f => f.id === freightId ? {...updated, id: freightId} : f)`. */
  function Replaced(list: seq<Freight>, freightId: string, f: NewFreight): (r: seq<Freight>)
    ensures |r| == |list|
    ensures forall i :: 0 <= i < |list| ==> r[i].id == list[i].id
    ensures forall i :: 0 <= i < |list| && list[i].id == freightId ==> r[i] == Freight(freightId, f.destinations, f.details)
    ensures forall i :: 0 <= i < |list| && list[i].id != freightId ==> r[i] == list[i]
  {
    seq(|list|, i requires 0 <= i < |list| =>
      if list[i].id == freightId then Freight(freightId, f.destinations, f.details) else list[i])
  }

  /** The map after `handleEditFreight`; a truck without a list gets an empty one. */
  function WithFreightEdited(m: map<string, seq<Freight>>, truckId: string, freightId: string, f: NewFreight)
    : (r: map<string, seq<Freight>>)
    ensures truckId in r && r[truckId] == Replaced(ListOf(m, truckId), freightId, f)
    ensures forall t :: t != truckId ==> (t in r <==> t in m) && (t in m ==> r[t] == m[t])
  {
    m[truckId := Replaced(ListOf(m, truckId), freightId, f)]
  }

  /** `list.find(f => f.id === freightId)`, as an index. */
  function FindFreight(list: seq<Freight>, freightId: string): (r: Option<nat>)
    ensures r.Some? ==>
      r.value < |list| && list[r.value].id == freightId
      && forall j :: 0 <= j < r.value ==> list[j].id != freightId
    ensures r.None? <==> forall j :: 0 <= j < |list| ==> list[j].id != freightId
    decreases |list|
  {
    if |list| == 0 then None
    else if list[0].id == freightId then Some(0)
    else
      match FindFreight(list[1..], freightId)
      case None => None
      case Some(i) => Some(i + 1)
  }

  /** `getFreightForEditing`: a copy of the first freight with that id, without the id, or nothing. */
  function FreightForEditing(m: map<string, seq<Freight>>, truckId: string, freightId: string): (r: Option<NewFreight>)
    ensures r.None? <==> forall j :: 0 <= j < |ListOf(m, truckId)| ==> ListOf(m, truckId)[j].id != freightId
    ensures r.Some? ==>
      exists j :: (0 <= j < |ListOf(m, truckId)| && ListOf(m, truckId)[j].id == freightId
                   && r.value == NewFreight(ListOf(m, truckId)[j].destinations, ListOf(m, truckId)[j].details)
                   && forall i :: 0 <= i < j ==> ListOf(m, truckId)[i].id != freightId)
  {
    var list := ListOf(m, truckId);
    match FindFreight(list, freightId)
    case None => None
    case Some(i) => Some(NewFreight(list[i].destinations, list[i].details))
  }

  /** A freight added under a fresh id is found again under that id, as it was given. */
  lemma AddThenFetch(m: map<string, seq<Freight>>, truckId: string, f: NewFreight, freshId: string)
    requires forall j :: 0 <= j < |ListOf(m, truckId)| ==> ListOf(m, truckId)[j].id != freshId
    ensures FreightForEditing(WithFreightAdded(m, truckId, f, freshId), truckId, freshId) == Some(f)
  {
    var list := ListOf(WithFreightAdded(m, truckId, f, freshId), truckId);
    var old_ := ListOf(m, truckId);
    assert list == old_ + [Freight(freshId, f.destinations, f.details)];
    assert list[|old_|].id == freshId;
    var i := FindFreight(list, freshId);
    assert i.Some?;
  }

  /** An edited freight is found again with the new contents. */
  lemma EditThenFetch(m: map<string, seq<Freight>>, truckId: string, freightId: string, f: NewFreight)
    requires exists j :: 0 <= j < |ListOf(m, truckId)| && ListOf(m, truckId)[j].id == freightId
    ensures FreightForEditing(WithFreightEdited(m, truckId, freightId, f), truckId, freightId) == Some(f)
  {
    var list := ListOf(WithFreightEdited(m, truckId, freightId, f), truckId);
    var j :| 0 <= j < |ListOf(m, truckId)| && ListOf(m, truckId)[j].id == freightId;
    assert list[j].id == freightId;
    var i := FindFreight(list, freightId);
    assert i.Some?;
  }

  /** Editing a freight id the truck does not have changes no freight. */
  lemma EditOfMissingId(list: seq<Freight>, freightId: string, f: NewFreight)
    requires forall j :: 0 <= j < |list| ==> list[j].id != freightId
    ensures Replaced(list, freightId, f) == list
  {
  }

  class TruckListState {
    var freights: map<string, seq<Freight>>
    var addingFreightFor: Option<string>
    var editingFreight: Option<EditTarget>

    /** The planner starts from its demonstration lists. */
    constructor (initial: map<string, seq<Freight>>)
      ensures freights == initial && addingFreightFor.None? && editingFreight.None?
    {
      freights := initial;
      addingFreightFor := None;
      editingFreight := None;
    }

    /** The modal shows while a form is open. */
    predicate ModalShown()
      reads this
    {
      addingFreightFor.Some? || editingFreight.Some?
    }

    method StartAdding(truckId: string)
      modifies this
      ensures addingFreightFor == Some(truckId) && freights == old(freights) && editingFreight == old(editingFreight)
    {
      addingFreightFor := Some(truckId);
    }

    method StartEditing(truckId: string, freightId: string)
      modifies this
      ensures editingFreight == Some(EditTarget(truckId, freightId))
      ensures freights == old(freights) && addingFreightFor == old(addingFreightFor)
    {
      editingFreight := Some(EditTarget(truckId, freightId));
    }

    /** The add form's cancel button: the form closes, nothing is saved. */
    method CancelAdding()
      modifies this
      ensures addingFreightFor.None? && freights == old(freights) && editingFreight == old(editingFreight)
    {
      addingFreightFor := None;
    }

    /** The edit form's cancel button: the form closes, nothing is saved. */
    method CancelEditing()
      modifies this
      ensures editingFreight.None? && freights == old(freights) && addingFreightFor == old(addingFreightFor)
    {
      editingFreight := None;
    }

    /** `handleAddFreight`, then the add form closes. */
    method HandleAddFreight(truckId: string, f: NewFreight, freshId: string)
      modifies this
      ensures freights == WithFreightAdded(old(freights), truckId, f, freshId)
      ensures addingFreightFor.None? && editingFreight == old(editingFreight)
    {
      var list := if truckId in freights then freights[truckId] else [];
      freights := freights[truckId := list + [Freight(freshId, f.destinations, f.details)]];
      addingFreightFor := None;
    }

    /** `handleEditFreight`, then the edit form closes. */
    method HandleEditFreight(truckId: string, freightId: string, f: NewFreight)
      modifies this
      ensures freights == WithFreightEdited(old(freights), truckId, freightId, f)
      ensures editingFreight.None? && addingFreightFor == old(addingFreightFor)
    {
      var list := if truckId in freights then freights[truckId] else [];
      freights := freights[truckId := Replaced(list, freightId, f)];
      editingFreight := None;
    }
  }
}
