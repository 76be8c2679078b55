/**
 * The place search box of src/components/ui/places-autocomplete.tsx:
 * stored places and Google's predictions merged into one list without
 * repeated place ids, the keyboard selection over that list, and the
 * upsert of the place the user picks.
 */
module PlacesAutocomplete {
  import opened Wrappers
  import opened Strings
  import opened Store
  import Places

  /** A suggestion, as the list shows it. */
  datatype Prediction = Prediction(placeId: string, description: string, mainText: string,
                                   secondaryText: string, types: seq<string>)

  /** A stored place in the suggestion format. */
  function FromStored(p: Places.Place): (r: Prediction)
    ensures r.placeId == p.info.placeId && r.description == p.info.formattedAddress
    ensures r.mainText == p.info.name && r.secondaryText == p.info.address && r.types == p.info.types
  {
    Prediction(p.info.placeId, p.info.formattedAddress, p.info.name, p.info.address, p.info.types)
  }

  /** `(searchStoredPlaces || []).map(...)`: nothing while the query is still loading. */
  function StoredResults(stored: Option<seq<Row<Places.Place>>>): (r: seq<Prediction>)
    ensures stored.None? ==> r == []
    ensures stored.Some? ==> |r| == |stored.value| && forall i :: 0 <= i < |r| ==> r[i] == FromStored(stored.value[i].doc)
  {
    if stored.None? then []
    else seq(|stored.value|, i requires 0 <= i < |stored.value| => FromStored(stored.value[i].doc))
  }

  // ---------------------------------------------------------------------
  // Removing repeated place ids

  predicate HasIdIn(s: seq<Prediction>, id: string)
  {
    exists j :: 0 <= j < |s| && s[j].placeId == id
  }

  predicate DistinctIds(s: seq<Prediction>)
  {
    forall i, j :: 0 <= i < j < |s| ==> s[i].placeId != s[j].placeId
  }

  /** `x` occurs in `s` with no earlier element of the same place id. */
  predicate FirstOfItsId(s: seq<Prediction>, x: Prediction)
  {
    exists i :: 0 <= i < |s| && s[i] == x && forall j :: 0 <= j < i ==> s[j].placeId != x.placeId
  }

  /**
   * `results.filter((r, i, self) => i === self.findIndex(o => o.place_id === r.place_id))`:
   * only the first result of each place id stays.
   */
  function Dedupe(s: seq<Prediction>): (r: seq<Prediction>)
    ensures |r| <= |s|
    decreases |s|
  {
    if |s| == 0 then []
    else
      var init := s[..|s| - 1];
      if HasIdIn(init, s[|s| - 1].placeId) then Dedupe(init) else Dedupe(init) + [s[|s| - 1]]
  }

  /** Each kept result is the first of its place id in the input. */
  lemma {:induction false} DedupeKeepsFirsts(s: seq<Prediction>)
    ensures forall k :: 0 <= k < |Dedupe(s)| ==> FirstOfItsId(s, Dedupe(s)[k])
    decreases |s|
  {
    if |s| > 0 {
      var init := s[..|s| - 1];
      var x := s[|s| - 1];
      assert s == init + [x];
      var d := Dedupe(init);
      DedupeKeepsFirsts(init);
      var r := Dedupe(s);
      forall k | 0 <= k < |r| ensures FirstOfItsId(s, r[k]) {
        if k < |d| {
          assert r[k] == d[k];
          FirstOfItsIdExtend(init, x, d[k]);
        } else {
          assert !HasIdIn(init, x.placeId) && r[k] == x;
          FirstOfItsIdLast(init, x);
        }
      }
    }
  }

  lemma FirstOfItsIdExtend(init: seq<Prediction>, x: Prediction, y: Prediction)
    requires FirstOfItsId(init, y)
    ensures FirstOfItsId(init + [x], y)
  {
    var i :| 0 <= i < |init| && init[i] == y && forall j :: 0 <= j < i ==> init[j].placeId != y.placeId;
    var t := init + [x];
    assert t[i] == y;
    forall j | 0 <= j < i ensures t[j].placeId != y.placeId {
      assert t[j] == init[j];
    }
  }

  lemma FirstOfItsIdLast(init: seq<Prediction>, x: Prediction)
    requires !HasIdIn(init, x.placeId)
    ensures FirstOfItsId(init + [x], x)
  {
    var t := init + [x];
    assert t[|init|] == x;
    forall j | 0 <= j < |init| ensures t[j].placeId != x.placeId {
      assert t[j] == init[j];
    }
  }

  /** No place id is listed twice. */
  lemma {:induction false} DedupeDistinctIds(s: seq<Prediction>)
    ensures DistinctIds(Dedupe(s))
    decreases |s|
  {
    if |s| > 0 {
      var init := s[..|s| - 1];
      var x := s[|s| - 1];
      var d := Dedupe(init);
      DedupeDistinctIds(init);
      DedupeKeepsFirsts(init);
      if !HasIdIn(init, x.placeId) {
        forall k | 0 <= k < |d| ensures d[k].placeId != x.placeId {
          var i :| 0 <= i < |init| && init[i] == d[k] && forall j :: 0 <= j < i ==> init[j].placeId != d[k].placeId;
        }
        var r := d + [x];
        forall i, j | 0 <= i < j < |r| ensures r[i].placeId != r[j].placeId {
          assert r[i] == d[i];
          if j < |d| {
            assert r[j] == d[j];
          }
        }
      }
    }
  }

  /** Every place id of the input is still listed. */
  lemma {:induction false} DedupeKeepsEveryId(s: seq<Prediction>)
    ensures forall i :: 0 <= i < |s| ==> HasIdIn(Dedupe(s), s[i].placeId)
    decreases |s|
  {
    if |s| > 0 {
      var init := s[..|s| - 1];
      var x := s[|s| - 1];
      var d := Dedupe(init);
      DedupeKeepsEveryId(init);
      var r := Dedupe(s);
      assert forall k :: 0 <= k < |d| ==> r[k] == d[k];
      forall i | 0 <= i < |s| ensures HasIdIn(r, s[i].placeId) {
        if i < |init| {
          assert s[i] == init[i];
          var k :| 0 <= k < |d| && d[k].placeId == init[i].placeId;
          assert r[k] == d[k];
        } else if HasIdIn(init, x.placeId) {
          var j :| 0 <= j < |init| && init[j].placeId == x.placeId;
          var k :| 0 <= k < |d| && d[k].placeId == init[j].placeId;
          assert r[k] == d[k];
        } else {
          assert r[|d|] == x;
        }
      }
    }
  }

  /** A list without repeated ids is left as it is. */
  lemma {:induction false} DedupeDistinct(s: seq<Prediction>)
    requires DistinctIds(s)
    ensures Dedupe(s) == s
    decreases |s|
  {
    if |s| > 0 {
      var init := s[..|s| - 1];
      var x := s[|s| - 1];
      DedupeDistinct(init);
      forall j | 0 <= j < |init| ensures init[j].placeId != x.placeId {
        assert init[j] == s[j];
      }
      assert !HasIdIn(init, x.placeId);
      assert init + [x] == s;
    }
  }

  /** Whatever follows it, a list without repeated ids comes first and unchanged. */
  lemma {:induction false} DedupeKeepsPrefix(a: seq<Prediction>, b: seq<Prediction>)
    requires DistinctIds(a)
    ensures |Dedupe(a + b)| >= |a| && Dedupe(a + b)[..|a|] == a
    decreases |b|
  {
    if |b| == 0 {
      assert a + b == a;
      DedupeDistinct(a);
    } else {
      var s := a + b;
      var b' := b[..|b| - 1];
      assert s[..|s| - 1] == a + b';
      DedupeKeepsPrefix(a, b');
      var d := Dedupe(a + b');
      assert Dedupe(s) == d || Dedupe(s) == d + [s[|s| - 1]];
      assert (d + [s[|s| - 1]])[..|a|] == d[..|a|];
    }
  }

  // ---------------------------------------------------------------------
  // searchPlaces

  /** Google's side of a search. */
  datatype GoogleAnswer =
    | NoService                                            // the library is not loaded
    | Threw                                                // the request threw
    | Answered(ok: bool, predictions: Option<seq<Prediction>>)

  const MaxResults: nat := 10

  /**
   * The list `searchPlaces` shows: nothing for a blank query; the stored
   * places alone without Google or when Google fails; otherwise the stored
   * places then Google's, first of each place id, at most ten.
   */
  function SearchResults(query: string, stored: Option<seq<Row<Places.Place>>>, google: GoogleAnswer): (r: seq<Prediction>)
    ensures Trim(query) == "" ==> r == []
    ensures Trim(query) != "" && !(google.Answered? && google.ok && google.predictions.Some?) ==> r == StoredResults(stored)
    ensures Trim(query) != "" && google.Answered? && google.ok && google.predictions.Some? ==>
      |r| <= MaxResults && DistinctIds(r)
      && (forall x :: x in r ==> x in StoredResults(stored) || x in google.predictions.value)
      && r == Take(Dedupe(StoredResults(stored) + google.predictions.value), MaxResults)
  {
    if Trim(query) == "" then []
    else
      var mine := StoredResults(stored);
      match google
      case Answered(ok, predictions) =>
        if ok && predictions.Some? then
          var merged := Dedupe(mine + predictions.value);
          DedupeKeepsFirsts(mine + predictions.value);
          DedupeDistinctIds(mine + predictions.value);
          var r := Take(merged, MaxResults);
          assert forall k :: 0 <= k < |r| ==> r[k] == merged[k];
          assert forall x :: x in r ==> x in mine + predictions.value by {
            forall x | x in r ensures x in mine + predictions.value {
              var k :| 0 <= k < |r| && r[k] == x;
              assert FirstOfItsId(mine + predictions.value, merged[k]);
            }
          }
          r
        else mine
      case _ => mine
  }

  /** With Google answering, stored places without repeats (at most ten of them) lead the list unchanged. */
  lemma StoredPlacesComeFirst(query: string, stored: Option<seq<Row<Places.Place>>>, predictions: seq<Prediction>)
    requires Trim(query) != "" && DistinctIds(StoredResults(stored)) && |StoredResults(stored)| <= MaxResults
    ensures var r := SearchResults(query, stored, Answered(true, Some(predictions)));
      |r| >= |StoredResults(stored)| && r[..|StoredResults(stored)|] == StoredResults(stored)
  {
    var mine := StoredResults(stored);
    DedupeKeepsPrefix(mine, predictions);
    var merged := Dedupe(mine + predictions);
    var r := SearchResults(query, stored, Answered(true, Some(predictions)));
    assert r == Take(merged, MaxResults);
    assert |r| >= |mine|;
    forall k | 0 <= k < |mine| ensures r[k] == mine[k] {
      assert r[k] == merged[k] && merged[..|mine|][k] == merged[k];
    }
    assert r[..|mine|] == mine;
  }

  // ---------------------------------------------------------------------
  // Keyboard selection

  /** ArrowDown: one further down, stopping at the last suggestion. */
  function NextIndex(prev: int, count: nat): (r: int)
    ensures prev < count - 1 ==> r == prev + 1
    ensures prev >= count - 1 ==> r == prev
  {
    if prev < count - 1 then prev + 1 else prev
  }

  /** ArrowUp: one further up, and from the first suggestion back to none (-1). */
  function PrevIndex(prev: int): (r: int)
    ensures r >= -1
    ensures prev > 0 ==> r == prev - 1
    ensures prev <= 0 ==> r == -1
  {
    if prev > 0 then prev - 1 else -1
  }

  /** Down then up returns to where the selection was, unless it was already at the bottom. */
  lemma DownThenUp(prev: int, count: nat)
    requires -1 <= prev < count - 1
    ensures PrevIndex(NextIndex(prev, count)) == prev
    ensures -1 <= NextIndex(prev, count) < count
  {
  }

  /** Pressing ArrowDown from "none" walks the list in order and stays on the last suggestion. */
  lemma {:induction false} DownWalksTheList(count: nat, presses: nat)
    requires count > 0
    ensures DownTimes(-1, count, presses) == if presses < count then presses - 1 else count - 1
    decreases presses
  {
    if presses > 0 {
      DownWalksTheList(count, presses - 1);
    }
  }

  function DownTimes(start: int, count: nat, presses: nat): int
    decreases presses
  {
    if presses == 0 then start else NextIndex(DownTimes(start, count, presses - 1), count)
  }

  datatype Key = ArrowDown | ArrowUp | Enter | Escape | OtherKey

  /** The stored details of a place Google returned on selection. */
  datatype Details = Details(placeId: string, name: string, formattedAddress: string, lat: real, lng: real,
                             types: seq<string>, vicinity: Option<string>, businessStatus: Option<string>,
                             rating: Option<real>, userRatingsTotal: Option<real>,
                             phoneNumber: Option<string>, website: Option<string>)

  /** The `upsertPlace` arguments: the address is the vicinity, or the formatted address without one. */
  function UpsertArgs(d: Details): (a: Places.PlaceArgs)
    ensures a.placeId == d.placeId && a.name == d.name && a.formattedAddress == d.formattedAddress
    ensures a.address == if d.vicinity.Some? && d.vicinity.value != "" then d.vicinity.value else d.formattedAddress
  {
    Places.PlaceArgs(d.name, if d.vicinity.Some? && d.vicinity.value != "" then d.vicinity.value else d.formattedAddress,
                     d.placeId, d.types, d.lat, d.lng, d.formattedAddress, d.vicinity, d.businessStatus,
                     d.rating, d.userRatingsTotal, d.phoneNumber, d.website)
  }

  /** The component's state. */
  class AutocompleteState {
    var inputValue: string
    var isOpen: bool
    var isLoading: bool
    var predictions: seq<Prediction>
    var selectedIndex: int

    /** The selection is a suggestion's index or -1 for none. */
    ghost predicate Valid()
      reads this
    {
      selectedIndex >= -1
    }

    constructor (value: string)
      ensures Valid() && inputValue == value && !isOpen && !isLoading && predictions == [] && selectedIndex == -1
    {
      inputValue := value;
      isOpen := false;
      isLoading := false;
      predictions := [];
      selectedIndex := -1;
    }

    /** The debounced effect runs a search only for a non-empty text while the list is open. */
    predicate SearchDue()
      reads this
    {
      inputValue != "" && isOpen
    }

    /** The drop-down shows while open and there is something to show or a search is running. */
    predicate DropDownShown()
      reads this
    {
      isOpen && (|predictions| > 0 || isLoading)
    }

    /** `searchPlaces`, with Google's answer given. */
    method SearchPlaces(query: string, stored: Option<seq<Row<Places.Place>>>, google: GoogleAnswer)
      requires Valid()
      modifies this
      ensures Valid()
      ensures predictions == SearchResults(query, stored, google)
      ensures isLoading == (if Trim(query) == "" then old(isLoading) else false)
      ensures inputValue == old(inputValue) && isOpen == old(isOpen) && selectedIndex == old(selectedIndex)
    {
      if Trim(query) == "" {
        predictions := [];
        return;
      }
      isLoading := true;
      var mine := StoredResults(stored);
      if google.Answered? && google.ok && google.predictions.Some? {
        predictions := Take(Dedupe(mine + google.predictions.value), MaxResults);
      } else {
        predictions := mine;
      }
      isLoading := false;
    }

    /**
     * `handleKeyDown`: nothing unless the list is open and holds
     * suggestions; Enter on a selected suggestion asks for its details.
     */
    method HandleKeyDown(key: Key) returns (detailsFor: Option<string>)
      requires Valid()
      modifies this
      ensures Valid()
      ensures inputValue == old(inputValue) && predictions == old(predictions) && isLoading == old(isLoading)
      ensures !old(isOpen) || |predictions| == 0 ==>
        selectedIndex == old(selectedIndex) && isOpen == old(isOpen) && detailsFor.None?
      ensures old(isOpen) && |predictions| > 0 ==>
        match key
        case ArrowDown => selectedIndex == NextIndex(old(selectedIndex), |predictions|) && isOpen && detailsFor.None?
        case ArrowUp => selectedIndex == PrevIndex(old(selectedIndex)) && isOpen && detailsFor.None?
        case Enter => selectedIndex == old(selectedIndex) && isOpen
          && detailsFor == (if 0 <= old(selectedIndex) < |predictions| then Some(predictions[old(selectedIndex)].placeId) else None)
        case Escape => selectedIndex == -1 && !isOpen && detailsFor.None?
        case OtherKey => selectedIndex == old(selectedIndex) && isOpen && detailsFor.None?
      ensures old(selectedIndex) < |predictions| ==> selectedIndex < |predictions|
    {
      detailsFor := None;
      if !isOpen || |predictions| == 0 {
        return;
      }
      match key
      case ArrowDown =>
        selectedIndex := if selectedIndex < |predictions| - 1 then selectedIndex + 1 else selectedIndex;
      case ArrowUp =>
        selectedIndex := if selectedIndex > 0 then selectedIndex - 1 else -1;
      case Enter =>
        if selectedIndex >= 0 && selectedIndex < |predictions| {
          detailsFor := Some(predictions[selectedIndex].placeId);
        }
      case Escape =>
        isOpen := false;
        selectedIndex := -1;
      case OtherKey =>
    }

    /** Typing: the text changes, the list opens and the selection goes. */
    method HandleInput(text: string)
      requires Valid()
      modifies this
      ensures Valid()
      ensures inputValue == text && isOpen && selectedIndex == -1
      ensures predictions == old(predictions) && isLoading == old(isLoading)
    {
      inputValue := text;
      isOpen := true;
      selectedIndex := -1;
    }

    /** `onFocus` of the input: the list opens. */
    method Focus()
      requires Valid()
      modifies this
      ensures Valid() && isOpen
      ensures inputValue == old(inputValue) && predictions == old(predictions)
      ensures selectedIndex == old(selectedIndex) && isLoading == old(isLoading)
    {
      isOpen := true;
    }

    /**
     * `clearInput`: empty text, closed list, no suggestions, no selection.
     * Its closing `focus()` call is the separate `Focus` event, which can
     * reopen the (then empty) list.
     */
    method ClearInput()
      requires Valid()
      modifies this
      ensures Valid()
      ensures inputValue == "" && !isOpen && predictions == [] && selectedIndex == -1 && isLoading == old(isLoading)
      ensures !SearchDue() && !DropDownShown()
    {
      inputValue := "";
      isOpen := false;
      predictions := [];
      selectedIndex := -1;
    }

    /**
     * The details callback of `handlePlaceSelect`: on success the place is
     * upserted, its name fills the box, the list closes and the selection
     * goes; the details are what `onPlaceSelect` receives.
     */
    method PlaceDetailsArrived(places: Table<Places.Place>, details: Option<Details>, now: int)
      returns (selected: Option<Details>)
      requires Valid() && places.Valid()
      modifies this, places
      ensures Valid() && places.Valid() && selected == details && !isLoading
      ensures details.None? ==>
        places.rows == old(places.rows) && inputValue == old(inputValue)
        && isOpen == old(isOpen) && selectedIndex == old(selectedIndex)
      ensures details.Some? ==>
        (places.rows, places.nextId) == Places.UpsertResult(old(places.rows), old(places.nextId), UpsertArgs(details.value), now)
        && inputValue == details.value.name && !isOpen && selectedIndex == -1
      ensures predictions == old(predictions)
    {
      isLoading := false;
      selected := details;
      if details.Some? {
        var _ := Places.UpsertPlace(places, UpsertArgs(details.value), now);
        inputValue := details.value.name;
        isOpen := false;
        selectedIndex := -1;
      }
    }
  }
}
