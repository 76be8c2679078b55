/**
 * The add-freight form of src/components/forms/freight/_components/AddFreightForm.tsx:
 * a destination draft appended to the route when complete, destinations
 * removed by id, and a save that needs a destination, a freight number
 * and a client.
 */
module AddFreightForm {
  import opened Wrappers
  import opened Strings
  import opened Freight

  /** What pressing save does. */
  datatype SaveOutcome =
    | Saved(freight: NewFreight)      // `onSave` is called
    | NoDestination                   // "Agrega al menos un destino"
    | MissingFields                   // "Completa los campos requeridos"

  class AddFreightFormState {
    var destinations: seq<Destination>
    var details: FreightDetails
    var draft: Draft

    /** The two drop-downs keep their fields on their literals. */
    ghost predicate Valid()
      reads this
    {
      IsPriority(details.priority) && IsStopKind(draft.kind) && KindsValid(destinations)
    }

    /** The form always opens empty. */
    constructor ()
      ensures Valid() && destinations == [] && details == EmptyDetails && draft == EmptyDraft
    {
      destinations := [];
      details := EmptyDetails;
      draft := EmptyDraft;
    }

    /** `addDestination`: append the trimmed draft and reset it, or change nothing. */
    method AddDestination(freshId: string)
      requires Valid()
      modifies this
      ensures Valid() && details == old(details)
      ensures DraftComplete(old(draft)) ==>
        destinations == AppendDraft(old(destinations), old(draft), freshId).value && draft == EmptyDraft
      ensures !DraftComplete(old(draft)) ==> destinations == old(destinations) && draft == old(draft)
    {
      if Trim(draft.name) != "" && Trim(draft.address) != "" {
        var d := Destination(freshId, Trim(draft.name), Trim(draft.address), draft.kind);
        destinations := destinations + [d];
        draft := EmptyDraft;
      }
    }

    /** `removeDestination`. */
    method RemoveDestination(id: string)
      requires Valid()
      modifies this
      ensures Valid() && destinations == WithoutDestination(old(destinations), id)
      ensures details == old(details) && draft == old(draft)
    {
      destinations := WithoutDestination(destinations, id);
      forall i | 0 <= i < |destinations| ensures IsStopKind(destinations[i].kind) {
        assert destinations[i] in old(destinations);
      }
    }

    /** `handleSave`: the destination check comes first, then the two required fields. */
    method HandleSave() returns (outcome: SaveOutcome)
      ensures outcome.NoDestination? <==> |destinations| == 0
      ensures outcome.MissingFields? <==> |destinations| > 0 && (details.freightNumber == "" || details.client == "")
      ensures outcome.Saved? ==> outcome.freight == NewFreight(destinations, details)
    {
      if |destinations| == 0 {
        return NoDestination;
      }
      if details.freightNumber == "" || details.client == "" {
        return MissingFields;
      }
      outcome := Saved(NewFreight(destinations, details));
    }

    method SetDraftName(v: string)
      requires Valid()
      modifies this
      ensures Valid() && draft == old(draft).(name := v)
      ensures destinations == old(destinations) && details == old(details)
    {
      draft := draft.(name := v);
    }

    method SetDraftAddress(v: string)
      requires Valid()
      modifies this
      ensures Valid() && draft == old(draft).(address := v)
      ensures destinations == old(destinations) && details == old(details)
    {
      draft := draft.(address := v);
    }

    /** The stop-type drop-down. */
    method SelectKind(raw: string)
      requires Valid()
      modifies this
      ensures Valid() && draft == old(draft).(kind := PickKind(old(draft.kind), raw))
      ensures destinations == old(destinations) && details == old(details)
    {
      if raw == "pickup" || raw == "delivery" || raw == "stopover" {
        draft := draft.(kind := raw);
      }
    }

    /** One of the five text inputs of the details. */
    method SetDetail(f: DetailField, v: string)
      requires Valid() && f != PriorityField
      modifies this
      ensures Valid() && details == UpdateDetail(old(details), f, v)
      ensures destinations == old(destinations) && draft == old(draft)
    {
      details := UpdateDetail(details, f, v);
    }

    /** The priority drop-down. */
    method SelectPriority(raw: string)
      requires Valid()
      modifies this
      ensures Valid() && details == old(details).(priority := PickPriority(old(details.priority), raw))
      ensures destinations == old(destinations) && draft == old(draft)
    {
      if raw == "low" || raw == "medium" || raw == "high" {
        details := details.(priority := raw);
      }
    }
  }
}
