/**
 * Places remembered from the maps search (convex/places.ts): searched in
 * name order, looked up and upserted by their Google place id.
 */
module Places {
  import opened Wrappers
  import opened Strings
  import opened Store

  /** The arguments `upsertPlace` accepts. */
  datatype PlaceArgs = PlaceArgs(
    name: string,
    address: string,
    placeId: string,
    types: seq<string>,
    lat: real,
    lng: real,
    formattedAddress: string,
    vicinity: Option<string>,
    businessStatus: Option<string>,
    rating: Option<real>,
    userRatingsTotal: Option<real>,
    phoneNumber: Option<string>,
    website: Option<string>)

  datatype Place = Place(info: PlaceArgs, createdAt: int, updatedAt: int)

  /** The `by_place_id` equality test. */
  function HasPlaceId(placeId: string): Place -> bool
  {
    (p: Place) => p.info.placeId == placeId
  }

  // ---------------------------------------------------------------------
  // The `by_name` index

  /** Strict string order. */
  predicate LexLt(a: string, b: string)
  {
    LexLe(a, b) && a != b
  }

  predicate SortedByName(rows: seq<Row<Place>>)
  {
    forall i, j :: 0 <= i < j < |rows| ==> LexLe(rows[i].doc.info.name, rows[j].doc.info.name)
  }

  /** Puts `row` after every row whose name is not greater than its own. */
  function InsertByName(row: Row<Place>, sorted: seq<Row<Place>>): (r: seq<Row<Place>>)
    ensures multiset(r) == multiset(sorted) + multiset{row}
    decreases |sorted|
  {
    if |sorted| == 0 then [row]
    else if LexLt(row.doc.info.name, sorted[0].doc.info.name) then [row] + sorted
    else
      assert sorted == [sorted[0]] + sorted[1..];
      [sorted[0]] + InsertByName(row, sorted[1..])
  }

  /** The places in `by_name` order; places with the same name keep their creation order. */
  function ByName(rows: seq<Row<Place>>): (r: seq<Row<Place>>)
    ensures multiset(r) == multiset(rows)
    decreases |rows|
  {
    if |rows| == 0 then []
    else
      assert rows == rows[..|rows| - 1] + [rows[|rows| - 1]];
      InsertByName(rows[|rows| - 1], ByName(rows[..|rows| - 1]))
  }

  lemma {:induction false} InsertByNameSorted(row: Row<Place>, sorted: seq<Row<Place>>)
    requires SortedByName(sorted)
    ensures SortedByName(InsertByName(row, sorted))
    decreases |sorted|
  {
    if |sorted| > 0 {
      var first := sorted[0];
      if LexLt(row.doc.info.name, first.doc.info.name) {
        forall k | 0 <= k < |sorted| ensures LexLe(row.doc.info.name, sorted[k].doc.info.name) {
          if k > 0 {
            LexLeTransitive(row.doc.info.name, first.doc.info.name, sorted[k].doc.info.name);
          }
        }
        SortedCons(row, sorted);
      } else {
        var tail := sorted[1..];
        var rest := InsertByName(row, tail);
        InsertByNameSorted(row, tail);
        LexLeTotal(row.doc.info.name, first.doc.info.name);
        forall k | 0 <= k < |tail| ensures LexLe(first.doc.info.name, tail[k].doc.info.name) {
          assert tail[k] == sorted[k + 1];
        }
        InsertedStaysAbove(first.doc.info.name, row, tail);
        SortedCons(first, rest);
      }
    }
  }

  /** A bound below the row and below every row of a list stays below once the row is inserted. */
  lemma InsertedStaysAbove(b: string, row: Row<Place>, s: seq<Row<Place>>)
    requires LexLe(b, row.doc.info.name)
    requires forall k :: 0 <= k < |s| ==> LexLe(b, s[k].doc.info.name)
    ensures forall j :: 0 <= j < |InsertByName(row, s)| ==> LexLe(b, InsertByName(row, s)[j].doc.info.name)
  {
    var r := InsertByName(row, s);
    forall j | 0 <= j < |r| ensures LexLe(b, r[j].doc.info.name) {
      assert r[j] in multiset(r);
      if r[j] != row {
        assert r[j] in multiset(s);
        var k :| 0 <= k < |s| && s[k] == r[j];
      }
    }
  }

  /** A row no greater than any of a sorted list goes in front of it. */
  lemma SortedCons(x: Row<Place>, s: seq<Row<Place>>)
    requires SortedByName(s)
    requires forall k :: 0 <= k < |s| ==> LexLe(x.doc.info.name, s[k].doc.info.name)
    ensures SortedByName([x] + s)
  {
    var r := [x] + s;
    forall i, j | 0 <= i < j < |r| ensures LexLe(r[i].doc.info.name, r[j].doc.info.name) {
      assert r[j] == s[j - 1];
      if i > 0 {
        assert r[i] == s[i - 1];
      }
    }
  }

  /** The `by_name` index is sorted by name and holds every place once. */
  lemma {:induction false} ByNameSorted(rows: seq<Row<Place>>)
    ensures SortedByName(ByName(rows)) && multiset(ByName(rows)) == multiset(rows)
    decreases |rows|
  {
    if |rows| > 0 {
      ByNameSorted(rows[..|rows| - 1]);
      InsertByNameSorted(rows[|rows| - 1], ByName(rows[..|rows| - 1]));
    }
  }

  /** The search filter `name >= term || name <= term + "￿"`. */
  predicate SearchFilter(name: string, term: string)
  {
    LexLe(term, name) || LexLe(name, term + "\U{FFFF}")
  }

  /** Every name passes the search filter, whatever the term. */
  lemma SearchFilterAdmitsAll(name: string, term: string)
    ensures SearchFilter(name, term)
  {
    LexLeTotal(term, name);
    if !LexLe(term, name) {
      LexLePrefix(term, "\U{FFFF}");
      LexLeTransitive(name, term, term + "\U{FFFF}");
    }
  }

  function FilterByName(rows: seq<Row<Place>>, term: string): (r: seq<Row<Place>>)
    decreases |rows|
  {
    if |rows| == 0 then []
    else if SearchFilter(rows[0].doc.info.name, term) then [rows[0]] + FilterByName(rows[1..], term)
    else FilterByName(rows[1..], term)
  }

  lemma {:induction false} FilterByNameIsIdentity(rows: seq<Row<Place>>, term: string)
    ensures FilterByName(rows, term) == rows
    decreases |rows|
  {
    if |rows| > 0 {
      SearchFilterAdmitsAll(rows[0].doc.info.name, term);
      FilterByNameIsIdentity(rows[1..], term);
      assert rows == [rows[0]] + rows[1..];
    }
  }

  /**
   * `searchPlaces`: nothing for a blank term; otherwise the first `limit`
   * places (10 when absent) in name order, since the filter admits every
   * place.
   */
  function SearchPlaces(places: Table<Place>, term: string, limit: Option<nat>): (r: seq<Row<Place>>)
    reads places
    ensures AllSpace(term) ==> r == []
    ensures !AllSpace(term) ==> r == Take(ByName(places.rows), limit.UnwrapOr(10))
    ensures |r| <= limit.UnwrapOr(10) && SortedByName(r)
    ensures multiset(r) <= multiset(places.rows)
  {
    TrimEmptyIffAllSpace(term);
    ByNameSorted(places.rows);
    FilterByNameIsIdentity(ByName(places.rows), term);
    if Trim(term) == "" then []
    else
      var sorted := FilterByName(ByName(places.rows), term);
      var r := Take(sorted, limit.UnwrapOr(10));
      assert sorted == r + sorted[|r|..];
      assert multiset(sorted) == multiset(r) + multiset(sorted[|r|..]);
      r
  }

  /** `getAllPlaces`: the first `limit` places (50 when absent) in creation order. */
  function GetAllPlaces(places: Table<Place>, limit: Option<nat>): (r: seq<Row<Place>>)
    reads places
    ensures |r| == if limit.UnwrapOr(50) < |places.rows| then limit.UnwrapOr(50) else |places.rows|
    ensures forall i :: 0 <= i < |r| ==> r[i] == places.rows[i]
  {
    Take(places.rows, limit.UnwrapOr(50))
  }

  /** `getPlaceByPlaceId`: the oldest place with that id, or nothing. */
  function GetPlaceByPlaceId(places: Table<Place>, placeId: string): (r: Option<Row<Place>>)
    reads places
    ensures r.Some? ==>
      exists i :: 0 <= i < |places.rows| && places.rows[i] == r.value
        && r.value.doc.info.placeId == placeId && forall j :: 0 <= j < i ==> places.rows[j].doc.info.placeId != placeId
    ensures r.None? <==> forall i :: 0 <= i < |places.rows| ==> places.rows[i].doc.info.placeId != placeId
  {
    FirstWhere(places.rows, HasPlaceId(placeId))
  }

  // ---------------------------------------------------------------------
  // upsertPlace

  /** `{...args}` over a stored place: optional arguments that were not given keep the stored value. */
  function Merge(stored: PlaceArgs, args: PlaceArgs): (m: PlaceArgs)
    ensures m.name == args.name && m.address == args.address && m.placeId == args.placeId && m.types == args.types
    ensures m.lat == args.lat && m.lng == args.lng && m.formattedAddress == args.formattedAddress
    ensures m.vicinity == if args.vicinity.Some? then args.vicinity else stored.vicinity
    ensures m.businessStatus == if args.businessStatus.Some? then args.businessStatus else stored.businessStatus
    ensures m.rating == if args.rating.Some? then args.rating else stored.rating
    ensures m.userRatingsTotal == if args.userRatingsTotal.Some? then args.userRatingsTotal else stored.userRatingsTotal
    ensures m.phoneNumber == if args.phoneNumber.Some? then args.phoneNumber else stored.phoneNumber
    ensures m.website == if args.website.Some? then args.website else stored.website
  {
    args.(vicinity := if args.vicinity.Some? then args.vicinity else stored.vicinity,
          businessStatus := if args.businessStatus.Some? then args.businessStatus else stored.businessStatus,
          rating := if args.rating.Some? then args.rating else stored.rating,
          userRatingsTotal := if args.userRatingsTotal.Some? then args.userRatingsTotal else stored.userRatingsTotal,
          phoneNumber := if args.phoneNumber.Some? then args.phoneNumber else stored.phoneNumber,
          website := if args.website.Some? then args.website else stored.website)
  }

  /** Upserting the same arguments twice leaves what the first upsert stored. */
  lemma MergeIdempotent(stored: PlaceArgs, args: PlaceArgs)
    ensures Merge(Merge(stored, args), args) == Merge(stored, args)
  {
  }

  /** Arguments that give every optional field replace the stored place entirely. */
  lemma MergeOfCompleteArgs(stored: PlaceArgs, args: PlaceArgs)
    requires args.vicinity.Some? && args.businessStatus.Some? && args.rating.Some?
    requires args.userRatingsTotal.Some? && args.phoneNumber.Some? && args.website.Some?
    ensures Merge(stored, args) == args
  {
  }

  /** The patched place: `updatedAt` is now, `createdAt` is kept. */
  function Patched(stored: Place, args: PlaceArgs, now: int): (p: Place)
    ensures p.createdAt == stored.createdAt && p.updatedAt == now
    ensures p.info.placeId == args.placeId
  {
    Place(Merge(stored.info, args), stored.createdAt, now)
  }

  /** The inserted place is created and updated at `now`. */
  function NewPlace(args: PlaceArgs, now: int): (p: Place)
    ensures p.createdAt == now && p.updatedAt == now && p.info == args
  {
    Place(args, now, now)
  }

  /** The table after `upsertPlace`, and its next id. */
  function UpsertResult(rows: seq<Row<Place>>, next: Id, args: PlaceArgs, now: int): (seq<Row<Place>>, Id)
  {
    match FirstWhere(rows, HasPlaceId(args.placeId))
    case Some(row) => (Replace(rows, row.id, Patched(row.doc, args, now)), next)
    case None => (rows + [Row(next, NewPlace(args, now))], next + 1)
  }

  /**
   * `upsertPlace`: patches the oldest place with the same place id, or
   * inserts a new one; the insert returns its id, the patch returns nothing.
   */
  method UpsertPlace(places: Table<Place>, args: PlaceArgs, now: int) returns (r: Option<Id>)
    requires places.Valid()
    modifies places
    ensures places.Valid()
    ensures (places.rows, places.nextId) == UpsertResult(old(places.rows), old(places.nextId), args, now)
    ensures r.Some? <==> FirstWhere(old(places.rows), HasPlaceId(args.placeId)).None?
    ensures r.Some? ==> r.value == old(places.nextId)
  {
    var existing := FirstWhere(places.rows, HasPlaceId(args.placeId));
    if existing.Some? {
      places.Put(existing.value.id, Patched(existing.value.doc, args, now));
      r := None;
    } else {
      var id := places.Insert(NewPlace(args, now));
      r := Some(id);
    }
  }

  /**
   * No place id ever gets a second place through `upsertPlace`; the table
   * grows by at most one place, and afterwards the place with the given id
   * exists and was updated at `now`.
   */
  lemma UpsertKeepsPlaceIdsUnique(rows: seq<Row<Place>>, next: Id, args: PlaceArgs, now: int, pid: string)
    requires IdsIncreasing(rows) && IdsBelow(rows, next) && CountWhere(rows, HasPlaceId(pid)) <= 1
    ensures var (rows1, _) := UpsertResult(rows, next, args, now);
      CountWhere(rows1, HasPlaceId(pid)) <= 1 && |rows| <= |rows1| <= |rows| + 1
      && match FirstWhere(rows1, HasPlaceId(args.placeId))
         case Some(row) => row.doc.updatedAt == now
         case None => false
  {
    var (rows1, _) := UpsertResult(rows, next, args, now);
    match FirstIndexWhere(rows, HasPlaceId(args.placeId))
    case Some(i) =>
      var row := rows[i];
      var doc := Patched(row.doc, args, now);
      forall j | 0 <= j < |rows| && rows[j].id == row.id
        ensures HasPlaceId(pid)(rows[j].doc) <==> HasPlaceId(pid)(doc)
      {
        assert j == i;
      }
      CountWhereReplace(rows, row.id, doc, HasPlaceId(pid));
      ReplaceFirstWhere(rows, i, doc, args.placeId);
    case None =>
      CountWhereNone(rows, HasPlaceId(args.placeId));
      CountWhereAppend(rows, Row(next, NewPlace(args, now)), HasPlaceId(pid));
      FirstWhereAppend(rows, Row(next, NewPlace(args, now)), HasPlaceId(args.placeId));
  }

  /** Patching the oldest place with a place id keeps it the oldest such place. */
  lemma {:induction false} ReplaceFirstWhere(rows: seq<Row<Place>>, i: nat, doc: Place, pid: string)
    requires IdsIncreasing(rows) && FirstIndexWhere(rows, HasPlaceId(pid)) == Some(i) && doc.info.placeId == pid
    ensures FirstWhere(Replace(rows, rows[i].id, doc), HasPlaceId(pid)) == Some(Row(rows[i].id, doc))
    decreases |rows|
  {
    if i > 0 {
      assert FirstIndexWhere(rows[1..], HasPlaceId(pid)) == Some(i - 1);
      ReplaceFirstWhere(rows[1..], i - 1, doc, pid);
      assert rows[1..][i - 1] == rows[i];
      assert rows[0].id != rows[i].id;
      assert Replace(rows, rows[i].id, doc) == [rows[0]] + Replace(rows[1..], rows[i].id, doc);
    } else {
      assert Replace(rows, rows[i].id, doc)[0] == Row(rows[i].id, doc);
    }
  }

  /** `deletePlace`. */
  method DeletePlace(places: Table<Place>, id: Id)
    requires places.Valid()
    modifies places
    ensures places.Valid()
    ensures places.nextId == old(places.nextId)
    ensures places.rows == Without(old(places.rows), id)
  {
    places.Delete(id);
  }
}
