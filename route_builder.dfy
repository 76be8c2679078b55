/**
 * The route editor of src/components/forms/freight/_components/RouteBuilder.tsx:
 * it owns only the destination draft and hands every new route back
 * through `onDestinationsChange`.
 */
module RouteBuilder {
  import opened Wrappers
  import opened Strings
  import opened Freight

  /** The add button is enabled on the raw fields, before any trimming. */
  predicate AddButtonEnabled(d: Draft)
  {
    d.name != "" && d.address != ""
  }

  /** A draft `addDestination` accepts always has its button enabled; the converse fails for blank text. */
  lemma EnabledButRejected()
    ensures DraftComplete(Draft("x", "y", "pickup")) && AddButtonEnabled(Draft("x", "y", "pickup"))
    ensures AddButtonEnabled(Draft(" ", "Centro", "pickup")) && !DraftComplete(Draft(" ", "Centro", "pickup"))
    ensures forall d :: DraftComplete(d) ==> AddButtonEnabled(d)
  {
    assert AllSpace(" ") && !AllSpace("x") && !AllSpace("y") && !AllSpace("Centro") by {
      assert !IsJsSpace("x"[0]) && !IsJsSpace("y"[0]) && !IsJsSpace("Centro"[0]);
    }
    TrimEmptyIffAllSpace(" ");
    TrimEmptyIffAllSpace("x");
    TrimEmptyIffAllSpace("y");
    TrimEmptyIffAllSpace("Centro");
    forall d | DraftComplete(d) ensures AddButtonEnabled(d) {
      CompleteIsEnabled(d);
    }
  }

  lemma CompleteIsEnabled(d: Draft)
    requires DraftComplete(d)
    ensures AddButtonEnabled(d)
  {
    TrimEmptyIffAllSpace(d.name);
    TrimEmptyIffAllSpace(d.address);
    assert AllSpace("");
  }

  class RouteBuilderState {
    var draft: Draft

    ghost predicate Valid()
      reads this
    {
      IsStopKind(draft.kind)
    }

    constructor ()
      ensures Valid() && draft == EmptyDraft
    {
      draft := EmptyDraft;
    }

    /**
     * `addDestination`: the route to emit (none when the draft is
     * incomplete) and, after an emit, an empty draft.
     */
    method AddDestination(destinations: seq<Destination>, freshId: string) returns (emitted: Option<seq<Destination>>)
      requires Valid()
      modifies this
      ensures Valid() && emitted == AppendDraft(destinations, old(draft), freshId)
      ensures emitted.Some? ==> draft == EmptyDraft
      ensures emitted.None? ==> draft == old(draft)
    {
      if Trim(draft.name) != "" && Trim(draft.address) != "" {
        emitted := Some(destinations + [Destination(freshId, Trim(draft.name), Trim(draft.address), draft.kind)]);
        draft := EmptyDraft;
      } else {
        emitted := None;
      }
    }

    /** `removeDestination`: the route to emit. */
    method RemoveDestination(destinations: seq<Destination>, id: string) returns (emitted: seq<Destination>)
      ensures emitted == WithoutDestination(destinations, id)
      ensures KindsValid(destinations) ==> KindsValid(emitted)
    {
      emitted := WithoutDestination(destinations, id);
      if KindsValid(destinations) {
        forall i | 0 <= i < |emitted| ensures IsStopKind(emitted[i].kind) {
          assert emitted[i] in destinations;
        }
      }
    }

    /** A place picked in the search box fills the name and address and keeps the stop type. */
    method PlaceSelected(name: string, formattedAddress: string)
      requires Valid()
      modifies this
      ensures Valid() && draft == Draft(name, formattedAddress, old(draft.kind))
    {
      draft := draft.(name := name, address := formattedAddress);
    }

    /** The stop-type drop-down. */
    method SelectKind(raw: string)
      requires Valid()
      modifies this
      ensures Valid() && draft == old(draft).(kind := PickKind(old(draft.kind), raw))
    {
      if raw == "pickup" || raw == "delivery" || raw == "stopover" {
        draft := draft.(kind := raw);
      }
    }
  }
}
