/**
 * The freight records the freight planner edits
 * (src/components/forms/freight/_components/): a freight is a route of
 * destinations plus a block of details, and the planner's two drop-downs
 * let only their three literals through.
 */
module Freight {
  import opened Wrappers
  import opened Strings
  import opened Seqs

  /** A stop of the route; `kind` is the stop type's literal. */
  datatype Destination = Destination(id: string, name: string, address: string, kind: string)

  datatype FreightDetails = FreightDetails(freightNumber: string, client: string, weight: string,
                                           value: string, priority: string, estimatedDelivery: string)

  /** What the add form hands back: a freight without its id. */
  datatype NewFreight = NewFreight(destinations: seq<Destination>, details: FreightDetails)

  datatype Freight = Freight(id: string, destinations: seq<Destination>, details: FreightDetails)

  /** The destination being typed in, before it is added. */
  datatype Draft = Draft(name: string, address: string, kind: string)

  predicate IsStopKind(s: string)
  {
    s == "pickup" || s == "delivery" || s == "stopover"
  }

  predicate IsPriority(s: string)
  {
    s == "low" || s == "medium" || s == "high"
  }

  const EmptyDraft := Draft("", "", "pickup")
  const EmptyDetails := FreightDetails("", "", "", "", "medium", "")

  /** The stop-type `<select>` handler: anything but the three literals is ignored. */
  function PickKind(current: string, raw: string): (r: string)
    ensures IsStopKind(raw) ==> r == raw
    ensures !IsStopKind(raw) ==> r == current
    ensures IsStopKind(current) ==> IsStopKind(r)
  {
    if IsStopKind(raw) then raw else current
  }

  /** The priority `<select>` handler: anything but the three literals is ignored. */
  function PickPriority(current: string, raw: string): (r: string)
    ensures IsPriority(raw) ==> r == raw
    ensures !IsPriority(raw) ==> r == current
    ensures IsPriority(current) ==> IsPriority(r)
  {
    if IsPriority(raw) then raw else current
  }

  /** The details' editable fields. */
  datatype DetailField = FreightNumberField | ClientField | WeightField | ValueField
                       | PriorityField | EstimatedDeliveryField

  function FieldOf(d: FreightDetails, f: DetailField): string
  {
    match f
    case FreightNumberField => d.freightNumber
    case ClientField => d.client
    case WeightField => d.weight
    case ValueField => d.value
    case PriorityField => d.priority
    case EstimatedDeliveryField => d.estimatedDelivery
  }

  /** `{...details, [field]: value}`: that field now holds `value`, and every other field is as it was. */
  function UpdateDetail(d: FreightDetails, f: DetailField, v: string): (r: FreightDetails)
    ensures FieldOf(r, f) == v
    ensures forall g :: g != f ==> FieldOf(r, g) == FieldOf(d, g)
  {
    match f
    case FreightNumberField => d.(freightNumber := v)
    case ClientField => d.(client := v)
    case WeightField => d.(weight := v)
    case ValueField => d.(value := v)
    case PriorityField => d.(priority := v)
    case EstimatedDeliveryField => d.(estimatedDelivery := v)
  }

  /** Writing a field's own value back changes nothing, and of two writes to one field the second wins. */
  lemma UpdateDetailLaws(d: FreightDetails, f: DetailField, v: string, w: string)
    ensures UpdateDetail(d, f, FieldOf(d, f)) == d
    ensures UpdateDetail(UpdateDetail(d, f, v), f, w) == UpdateDetail(d, f, w)
  {
  }

  /** `addDestination`'s test: both fields non-blank once trimmed. */
  predicate DraftComplete(d: Draft)
  {
    Trim(d.name) != "" && Trim(d.address) != ""
  }

  /**
   * `addDestination` on a list: when the draft is complete, the list with
   * one destination appended holding the trimmed name and address, the
   * draft's type and the fresh id; otherwise no new list.
   */
  function AppendDraft(ds: seq<Destination>, d: Draft, freshId: string): (r: Option<seq<Destination>>)
    ensures r.Some? <==> DraftComplete(d)
    ensures r.Some? ==>
      |r.value| == |ds| + 1 && r.value[..|ds|] == ds
      && r.value[|ds|] == Destination(freshId, Trim(d.name), Trim(d.address), d.kind)
  {
    if DraftComplete(d) then
      var r := ds + [Destination(freshId, Trim(d.name), Trim(d.address), d.kind)];
      assert r[..|ds|] == ds;
      Some(r)
    else None
  }

  /** An added destination has no white space at either end of its name or address. */
  lemma AppendedIsTrimmed(ds: seq<Destination>, d: Draft, freshId: string)
    requires DraftComplete(d)
    ensures var x := AppendDraft(ds, d, freshId).value[|ds|];
      !IsJsSpace(x.name[0]) && !IsJsSpace(x.name[|x.name| - 1])
      && !IsJsSpace(x.address[0]) && !IsJsSpace(x.address[|x.address| - 1])
  {
    TrimIsCore(d.name);
    TrimIsCore(d.address);
  }

  /** `ds.filter(dest => dest.id !== id)`. */
  function WithoutDestination(ds: seq<Destination>, id: string): (r: seq<Destination>)
    ensures forall x :: x in r <==> x in ds && x.id != id
    ensures IsSubsequence(r, ds)
    ensures (forall i :: 0 <= i < |ds| ==> ds[i].id != id) ==> r == ds
  {
    if forall i :: 0 <= i < |ds| ==> ds[i].id != id then
      FilterAll(ds, (x: Destination) => x.id != id);
      Filter(ds, (x: Destination) => x.id != id)
    else Filter(ds, (x: Destination) => x.id != id)
  }

  /** Removing a destination just added under a fresh id gives the list back. */
  lemma AddThenRemoveDestination(ds: seq<Destination>, d: Draft, freshId: string)
    requires DraftComplete(d)
    requires forall i :: 0 <= i < |ds| ==> ds[i].id != freshId
    ensures WithoutDestination(AppendDraft(ds, d, freshId).value, freshId) == ds
  {
    var x := Destination(freshId, Trim(d.name), Trim(d.address), d.kind);
    var p := (y: Destination) => y.id != freshId;
    assert AppendDraft(ds, d, freshId).value == ds + [x];
    FilterAppend(ds, [x], p);
    FilterAll(ds, p);
    assert [x][1..] == [];
    assert Filter([x], p) == [];
  }

  /** Every stop type in the list is one of the three literals. */
  predicate KindsValid(ds: seq<Destination>)
  {
    forall i :: 0 <= i < |ds| ==> IsStopKind(ds[i].kind)
  }
}
