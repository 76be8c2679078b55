/**
 * A Convex table: documents in creation order, each with an id the table
 * hands out and never reuses. `first()` on an equality index yields the
 * oldest matching document; `order("desc")` yields the newest first.
 */
module Store {
  import opened Wrappers

  type Id = nat

  datatype Row<R> = Row(id: Id, doc: R)

  predicate IdsIncreasing<R>(rows: seq<Row<R>>)
  {
    forall i, j :: 0 <= i < j < |rows| ==> rows[i].id < rows[j].id
  }

  predicate IdsBelow<R>(rows: seq<Row<R>>, bound: Id)
  {
    forall i :: 0 <= i < |rows| ==> rows[i].id < bound
  }

  predicate HasId<R>(rows: seq<Row<R>>, id: Id)
  {
    exists i :: 0 <= i < |rows| && rows[i].id == id
  }

  /** `db.get(id)`. */
  function Lookup<R>(rows: seq<Row<R>>, id: Id): (r: Option<R>)
    ensures r.Some? <==> HasId(rows, id)
    decreases |rows|
  {
    if |rows| == 0 then None
    else if rows[0].id == id then Some(rows[0].doc)
    else
      assert forall i :: 0 <= i < |rows| - 1 ==> rows[1..][i] == rows[i + 1];
      Lookup(rows[1..], id)
  }

  /** In a table whose ids are distinct, `get` finds the document stored under the id. */
  lemma {:induction false} LookupAt<R>(rows: seq<Row<R>>, i: nat)
    requires IdsIncreasing(rows) && i < |rows|
    ensures Lookup(rows, rows[i].id) == Some(rows[i].doc)
    decreases |rows|
  {
    if i > 0 {
      LookupAt(rows[1..], i - 1);
    }
  }

  /** The position of the oldest document satisfying `p`. */
  function FirstIndexWhere<R>(rows: seq<Row<R>>, p: R -> bool): (r: Option<nat>)
    ensures r.Some? ==> r.value < |rows| && p(rows[r.value].doc) && forall j :: 0 <= j < r.value ==> !p(rows[j].doc)
    ensures r.None? ==> forall i :: 0 <= i < |rows| ==> !p(rows[i].doc)
    decreases |rows|
  {
    if |rows| == 0 then None
    else if p(rows[0].doc) then Some(0)
    else
      match FirstIndexWhere(rows[1..], p)
      case None => None
      case Some(k) => Some(k + 1)
  }

  /** The oldest document satisfying `p`, as `.first()` on an equality index. */
  function FirstWhere<R>(rows: seq<Row<R>>, p: R -> bool): (r: Option<Row<R>>)
    ensures r.Some? ==>
      exists i :: 0 <= i < |rows| && rows[i] == r.value && p(rows[i].doc)
        && forall j :: 0 <= j < i ==> !p(rows[j].doc)
    ensures r.None? <==> forall i :: 0 <= i < |rows| ==> !p(rows[i].doc)
  {
    match FirstIndexWhere(rows, p)
    case None => None
    case Some(i) => Some(rows[i])
  }

  /** Appending a document changes the oldest match only when there was none. */
  lemma {:induction false} FirstWhereAppend<R>(rows: seq<Row<R>>, x: Row<R>, p: R -> bool)
    ensures FirstWhere(rows + [x], p) ==
      if FirstWhere(rows, p).Some? then FirstWhere(rows, p)
      else if p(x.doc) then Some(x) else None
    decreases |rows|
  {
    if |rows| > 0 {
      assert (rows + [x])[1..] == rows[1..] + [x];
      FirstWhereAppend(rows[1..], x, p);
    }
  }

  /** All documents satisfying `p`, oldest first. */
  function FilterRows<R>(rows: seq<Row<R>>, p: R -> bool): (r: seq<Row<R>>)
    ensures |r| <= |rows|
    ensures forall i :: 0 <= i < |r| ==> p(r[i].doc)
    decreases |rows|
  {
    if |rows| == 0 then []
    else if p(rows[0].doc) then [rows[0]] + FilterRows(rows[1..], p)
    else FilterRows(rows[1..], p)
  }

  /**
   * The `n` newest rows satisfying `p`, newest first: an equality index
   * read with `order("desc").take(n)`.
   */
  function LatestWhere<R>(rows: seq<Row<R>>, p: R -> bool, n: nat): (r: seq<Row<R>>)
    ensures |r| <= n && forall k :: 0 <= k < |r| ==> p(r[k].doc)
    decreases |rows|
  {
    if n == 0 || |rows| == 0 then []
    else
      var last := rows[|rows| - 1];
      if p(last.doc) then [last] + LatestWhere(rows[..|rows| - 1], p, n - 1)
      else LatestWhere(rows[..|rows| - 1], p, n)
  }

  /** Counting from the end: the matching rows among the last ones. */
  lemma {:induction false} CountWhereSplit<R>(rows: seq<Row<R>>, p: R -> bool)
    requires |rows| > 0
    ensures CountWhere(rows, p) == CountWhere(rows[..|rows| - 1], p) + if p(rows[|rows| - 1].doc) then 1 else 0
  {
    assert rows == rows[..|rows| - 1] + [rows[|rows| - 1]];
    CountWhereAppend(rows[..|rows| - 1], rows[|rows| - 1], p);
  }

  /**
   * `LatestWhere` takes as many matching rows as there are, up to `n`,
   * newest first, with ids strictly decreasing, and starts with the
   * newest row when that row matches.
   */
  lemma {:induction false} LatestWhereSpec<R>(rows: seq<Row<R>>, p: R -> bool, n: nat, bound: Id)
    requires IdsIncreasing(rows) && IdsBelow(rows, bound)
    ensures var r := LatestWhere(rows, p, n);
      |r| == (if CountWhere(rows, p) < n then CountWhere(rows, p) else n)
      && IdsBelow(r, bound)
      && (forall k, l :: 0 <= k < l < |r| ==> r[k].id > r[l].id)
      && (n > 0 && |rows| > 0 && p(rows[|rows| - 1].doc) ==> r[0] == rows[|rows| - 1])
    decreases |rows|
  {
    if n > 0 && |rows| > 0 {
      var init := rows[..|rows| - 1];
      var last := rows[|rows| - 1];
      CountWhereSplit(rows, p);
      if p(last.doc) {
        LatestWhereSpec(init, p, n - 1, last.id);
        var rest := LatestWhere(init, p, n - 1);
        var r := LatestWhere(rows, p, n);
        assert r == [last] + rest;
        forall k, l | 0 <= k < l < |r| ensures r[k].id > r[l].id {
          assert r[l] == rest[l - 1];
          if k > 0 {
            assert r[k] == rest[k - 1];
          }
        }
      } else {
        LatestWhereSpec(init, p, n, bound);
      }
    } else if |rows| == 0 {
      assert CountWhere(rows, p) == 0;
    }
  }

  /** Every row `LatestWhere` returns is a row of the table. */
  lemma {:induction false} LatestWhereFromRows<R>(rows: seq<Row<R>>, p: R -> bool, n: nat)
    ensures forall k :: 0 <= k < |LatestWhere(rows, p, n)| ==> HasId(rows, LatestWhere(rows, p, n)[k].id)
    decreases |rows|
  {
    if n > 0 && |rows| > 0 {
      var init := rows[..|rows| - 1];
      var last := rows[|rows| - 1];
      var m := if p(last.doc) then n - 1 else n;
      LatestWhereFromRows(init, p, m);
      var r := LatestWhere(rows, p, n);
      forall k | 0 <= k < |r| ensures HasId(rows, r[k].id) {
        if p(last.doc) && k == 0 {
          assert rows[|rows| - 1].id == r[k].id;
        } else {
          var j := if p(last.doc) then k - 1 else k;
          assert r[k] == LatestWhere(init, p, m)[j];
          var i :| 0 <= i < |init| && init[i].id == r[k].id;
          assert rows[i] == init[i];
        }
      }
    }
  }

  /** The rows `LatestWhere` takes are rows of the table. */
  lemma {:induction false} LatestWhereTakesRows<R>(rows: seq<Row<R>>, p: R -> bool, n: nat)
    ensures forall k :: 0 <= k < |LatestWhere(rows, p, n)| ==> LatestWhere(rows, p, n)[k] in rows
    decreases |rows|
  {
    if n > 0 && |rows| > 0 {
      var init := rows[..|rows| - 1];
      var last := rows[|rows| - 1];
      var m := if p(last.doc) then n - 1 else n;
      LatestWhereTakesRows(init, p, m);
      var rest := LatestWhere(init, p, m);
      assert forall k :: 0 <= k < |rest| ==> rest[k] in init;
    }
  }

  /** Every row matching `p` that `r` leaves out is older than each row of `r`. */
  ghost predicate SkipsOnlyOlder<R>(rows: seq<Row<R>>, p: R -> bool, r: seq<Row<R>>)
  {
    forall i, k :: 0 <= i < |rows| && p(rows[i].doc) && rows[i] !in r && 0 <= k < |r| ==> rows[i].id < r[k].id
  }

  /** `LatestWhere` leaves out only matching rows older than those it takes. */
  lemma {:induction false} LatestWhereSkipsOlder<R>(rows: seq<Row<R>>, p: R -> bool, n: nat)
    requires IdsIncreasing(rows)
    ensures SkipsOnlyOlder(rows, p, LatestWhere(rows, p, n))
    decreases |rows|
  {
    if n > 0 && |rows| > 0 {
      var init := rows[..|rows| - 1];
      var last := rows[|rows| - 1];
      var m := if p(last.doc) then n - 1 else n;
      LatestWhereSkipsOlder(init, p, m);
      LatestWhereTakesRows(init, p, m);
      var rest := LatestWhere(init, p, m);
      assert rows == init + [last];
      if p(last.doc) {
        SkipsOnlyOlderTaking(init, last, p, rest);
      } else {
        SkipsOnlyOlderPassing(init, last, p, rest);
      }
    }
  }

  lemma SkipsOnlyOlderTaking<R>(init: seq<Row<R>>, last: Row<R>, p: R -> bool, rest: seq<Row<R>>)
    requires IdsIncreasing(init + [last]) && SkipsOnlyOlder(init, p, rest)
    requires forall k :: 0 <= k < |rest| ==> rest[k] in init
    ensures SkipsOnlyOlder(init + [last], p, [last] + rest)
  {
    var rows := init + [last];
    var r := [last] + rest;
    forall i, k | 0 <= i < |rows| && p(rows[i].doc) && rows[i] !in r && 0 <= k < |r| ensures rows[i].id < r[k].id {
      assert r[0] == last && rows[|init|] == last;
      assert i < |init|;
      assert rows[i] == init[i] && rows[i] !in rest;
      if k > 0 {
        assert r[k] == rest[k - 1];
      }
    }
  }

  lemma SkipsOnlyOlderPassing<R>(init: seq<Row<R>>, last: Row<R>, p: R -> bool, rest: seq<Row<R>>)
    requires !p(last.doc) && SkipsOnlyOlder(init, p, rest)
    ensures SkipsOnlyOlder(init + [last], p, rest)
  {
    var rows := init + [last];
    forall i, k | 0 <= i < |rows| && p(rows[i].doc) && rows[i] !in rest && 0 <= k < |rest| ensures rows[i].id < rest[k].id {
      assert rows[i] == init[i];
    }
  }

  /** The table without the document `id`. */
  function Without<R>(rows: seq<Row<R>>, id: Id): (r: seq<Row<R>>)
    ensures |r| <= |rows|
    ensures forall x :: Lookup(r, x) == if x == id then None else Lookup(rows, x)
    decreases |rows|
  {
    if |rows| == 0 then []
    else if rows[0].id == id then Without(rows[1..], id)
    else [rows[0]] + Without(rows[1..], id)
  }

  /** The table with the document `id`, if there is one, replaced by `doc`. */
  function Replace<R>(rows: seq<Row<R>>, id: Id, doc: R): (r: seq<Row<R>>)
    ensures |r| == |rows|
    ensures forall i :: 0 <= i < |r| ==> r[i].id == rows[i].id
    ensures forall x :: Lookup(r, x) == if x == id && HasId(rows, id) then Some(doc) else Lookup(rows, x)
    decreases |rows|
  {
    if |rows| == 0 then []
    else if rows[0].id == id then [Row(id, doc)] + Replace(rows[1..], id, doc)
    else [rows[0]] + Replace(rows[1..], id, doc)
  }

  lemma {:induction false} WithoutKeepsOrder<R>(rows: seq<Row<R>>, id: Id, bound: Id)
    requires IdsIncreasing(rows) && IdsBelow(rows, bound)
    ensures IdsIncreasing(Without(rows, id)) && IdsBelow(Without(rows, id), bound)
    ensures forall i :: 0 <= i < |Without(rows, id)| ==> HasId(rows, Without(rows, id)[i].id)
    decreases |rows|
  {
    if |rows| > 0 {
      var tail := rows[1..];
      assert IdsIncreasing(tail) && IdsBelow(tail, bound);
      WithoutKeepsOrder(tail, id, bound);
      var rest := Without(tail, id);
      forall i | 0 <= i < |rest| ensures rows[0].id < rest[i].id && HasId(rows, rest[i].id) {
        var j :| 0 <= j < |tail| && tail[j].id == rest[i].id;
        assert rows[j + 1] == tail[j];
      }
      if rows[0].id != id {
        assert Without(rows, id) == [rows[0]] + rest;
        RowsCons(rows[0], rest, rows, bound);
      }
    }
  }

  /** A row below `bound` and below every row of an increasing list goes in front of it. */
  lemma RowsCons<R>(x: Row<R>, rest: seq<Row<R>>, rows: seq<Row<R>>, bound: Id)
    requires IdsIncreasing(rest) && IdsBelow(rest, bound) && x.id < bound
    requires forall i :: 0 <= i < |rest| ==> x.id < rest[i].id && HasId(rows, rest[i].id)
    requires |rows| > 0 && rows[0] == x
    ensures IdsIncreasing([x] + rest) && IdsBelow([x] + rest, bound)
    ensures forall i :: 0 <= i < |[x] + rest| ==> HasId(rows, ([x] + rest)[i].id)
  {
    var r := [x] + rest;
    forall i, j | 0 <= i < j < |r| ensures r[i].id < r[j].id {
      assert r[j] == rest[j - 1];
      if i > 0 {
        assert r[i] == rest[i - 1];
      }
    }
    forall i | 0 <= i < |r| ensures r[i].id < bound && HasId(rows, r[i].id) {
      if i > 0 {
        assert r[i] == rest[i - 1];
      }
    }
  }

  /** Newest first, as `order("desc")` on creation time. */
  function Newest<R>(rows: seq<Row<R>>): (r: seq<Row<R>>)
    ensures |r| == |rows| && forall i :: 0 <= i < |r| ==> r[i] == rows[|rows| - 1 - i]
  {
    seq(|rows|, i requires 0 <= i < |rows| => rows[|rows| - 1 - i])
  }

  /** `take(n)`. */
  function Take<T>(s: seq<T>, n: nat): (r: seq<T>)
    ensures |r| == if n < |s| then n else |s|
    ensures forall i :: 0 <= i < |r| ==> r[i] == s[i]
  {
    if n < |s| then s[..n] else s
  }

  lemma NewestIsDescending<R>(rows: seq<Row<R>>)
    requires IdsIncreasing(rows)
    ensures forall i, j :: 0 <= i < j < |Newest(rows)| ==> Newest(rows)[i].id > Newest(rows)[j].id
  {
  }

  /** How an update mutation can fail: nothing to change, or no such document. */
  datatype UpdateError = NoUpdatesProvided | NoSuchDocument

  function CountWhere<R>(rows: seq<Row<R>>, p: R -> bool): nat
    decreases |rows|
  {
    if |rows| == 0 then 0 else (if p(rows[0].doc) then 1 else 0) + CountWhere(rows[1..], p)
  }

  lemma {:induction false} CountWhereAppend<R>(rows: seq<Row<R>>, x: Row<R>, p: R -> bool)
    ensures CountWhere(rows + [x], p) == CountWhere(rows, p) + if p(x.doc) then 1 else 0
    decreases |rows|
  {
    if |rows| > 0 {
      assert (rows + [x])[1..] == rows[1..] + [x];
      CountWhereAppend(rows[1..], x, p);
    }
  }

  /** Replacing a document by one that agrees with it on `p` keeps the count of `p`. */
  lemma {:induction false} CountWhereReplace<R>(rows: seq<Row<R>>, id: Id, doc: R, p: R -> bool)
    requires forall i :: 0 <= i < |rows| && rows[i].id == id ==> (p(rows[i].doc) <==> p(doc))
    ensures CountWhere(Replace(rows, id, doc), p) == CountWhere(rows, p)
    decreases |rows|
  {
    if |rows| > 0 {
      CountWhereReplace(rows[1..], id, doc, p);
      assert Replace(rows, id, doc)[1..] == Replace(rows[1..], id, doc);
    }
  }

  lemma {:induction false} CountWhereNone<R>(rows: seq<Row<R>>, p: R -> bool)
    requires FirstWhere(rows, p).None?
    ensures CountWhere(rows, p) == 0
    decreases |rows|
  {
    if |rows| > 0 {
      assert FirstIndexWhere(rows[1..], p).None?;
      CountWhereNone(rows[1..], p);
    }
  }

  /**
   * Find-or-create as the mutations write it: the id of the oldest
   * document satisfying `p`, or else the id of `doc`, newly appended.
   * The result is the id, the new rows and the new id counter.
   */
  function FindOrInsertResult<R>(rows: seq<Row<R>>, next: Id, p: R -> bool, doc: R): (Id, seq<Row<R>>, Id)
  {
    match FirstWhere(rows, p)
    case Some(row) => (row.id, rows, next)
    case None => (next, rows + [Row(next, doc)], next + 1)
  }

  /** A second find-or-create for the same key finds what the first one returned and inserts nothing. */
  lemma FindOrInsertIdempotent<R>(rows: seq<Row<R>>, next: Id, p: R -> bool, doc: R, doc2: R)
    requires p(doc)
    ensures var (id1, rows1, next1) := FindOrInsertResult(rows, next, p, doc);
      FindOrInsertResult(rows1, next1, p, doc2) == (id1, rows1, next1)
  {
    if FirstWhere(rows, p).None? {
      FirstWhereAppend(rows, Row(next, doc), p);
    }
  }

  /**
   * Find-or-create adds at most one document, keeps at most one document
   * per key, and returns the id of a document satisfying `p`.
   */
  lemma FindOrInsertKeepsKeyUnique<R>(rows: seq<Row<R>>, next: Id, p: R -> bool, doc: R)
    requires p(doc) && IdsIncreasing(rows) && IdsBelow(rows, next) && CountWhere(rows, p) <= 1
    ensures var (id, rows1, next1) := FindOrInsertResult(rows, next, p, doc);
      CountWhere(rows1, p) <= 1 && |rows1| <= |rows| + 1
      && IdsIncreasing(rows1) && IdsBelow(rows1, next1)
      && Lookup(rows1, id).Some? && p(Lookup(rows1, id).value)
  {
    var (id, rows1, next1) := FindOrInsertResult(rows, next, p, doc);
    match FirstIndexWhere(rows, p)
    case Some(i) =>
      LookupAt(rows, i);
    case None =>
      CountWhereNone(rows, p);
      CountWhereAppend(rows, Row(next, doc), p);
      LookupAt(rows1, |rows|);
  }

  /** Find-or-create only ever appends, at most one document, with an id above every earlier one. */
  lemma FindOrInsertGrowth<R>(rows: seq<Row<R>>, next: Id, p: R -> bool, doc: R)
    requires IdsIncreasing(rows) && IdsBelow(rows, next)
    ensures var (_, rows1, next1) := FindOrInsertResult(rows, next, p, doc);
      rows <= rows1 && |rows1| <= |rows| + 1 && next <= next1
      && IdsIncreasing(rows1) && IdsBelow(rows1, next1)
  {
  }

  /** The id find-or-create returns names a stored document satisfying `p`. */
  lemma FindOrInsertFinds<R>(rows: seq<Row<R>>, next: Id, p: R -> bool, doc: R)
    requires p(doc) && IdsIncreasing(rows) && IdsBelow(rows, next)
    ensures var (id, rows1, _) := FindOrInsertResult(rows, next, p, doc);
      Lookup(rows1, id).Some? && p(Lookup(rows1, id).value)
  {
    match FirstIndexWhere(rows, p)
    case Some(i) =>
      LookupAt(rows, i);
    case None =>
      LookupAt(rows + [Row(next, doc)], |rows|);
  }

  /** Find-or-create leaves every document already stored readable as before. */
  lemma FindOrInsertKeepsLookup<R>(rows: seq<Row<R>>, next: Id, p: R -> bool, doc: R, x: Id)
    requires HasId(rows, x)
    ensures var (_, rows1, _) := FindOrInsertResult(rows, next, p, doc);
      Lookup(rows1, x) == Lookup(rows, x)
  {
    if FirstWhere(rows, p).None? {
      LookupAppend(rows, Row(next, doc), x);
    }
  }

  /** The contents of a table at one moment: its rows and the id it hands out next. */
  datatype Snap<R> = Snap(rows: seq<Row<R>>, next: Id)

  predicate SnapValid<R>(s: Snap<R>)
  {
    IdsIncreasing(s.rows) && IdsBelow(s.rows, s.next)
  }

  /** Appending a document leaves every earlier `get` as it was. */
  lemma {:induction false} LookupAppend<R>(rows: seq<Row<R>>, x: Row<R>, id: Id)
    requires HasId(rows, id)
    ensures Lookup(rows + [x], id) == Lookup(rows, id)
    decreases |rows|
  {
    if rows[0].id != id {
      var i :| 0 <= i < |rows| && rows[i].id == id;
      assert rows[1..][i - 1].id == id;
      assert (rows + [x])[1..] == rows[1..] + [x];
      LookupAppend(rows[1..], x, id);
    }
  }

  class Table<R> {
    var rows: seq<Row<R>>
    var nextId: Id

    ghost predicate Valid()
      reads this
    {
      IdsIncreasing(rows) && IdsBelow(rows, nextId)
    }

    constructor ()
      ensures Valid() && rows == [] && nextId == 0
    {
      rows := [];
      nextId := 0;
    }

    function Snapshot(): (s: Snap<R>)
      reads this
      ensures Valid() <==> SnapValid(s)
    {
      Snap(rows, nextId)
    }

    /** `db.get(id)`. */
    function Get(id: Id): Option<R>
      reads this
    {
      Lookup(rows, id)
    }

    /** `db.insert(doc)`: the new document gets an id no document had. */
    method Insert(doc: R) returns (id: Id)
      requires Valid()
      modifies this
      ensures Valid()
      ensures id == old(nextId) && !HasId(old(rows), id)
      ensures rows == old(rows) + [Row(id, doc)] && nextId == old(nextId) + 1
    {
      id := nextId;
      rows := rows + [Row(id, doc)];
      nextId := nextId + 1;
    }

    /** `db.patch(id, …)` or `db.replace(id, …)` with the merged document `doc`. */
    method Put(id: Id, doc: R)
      requires Valid()
      modifies this
      ensures Valid()
      ensures rows == Replace(old(rows), id, doc) && nextId == old(nextId)
    {
      rows := Replace(rows, id, doc);
    }

    /** Looks the key up and inserts `doc` only when nothing matches. */
    method FindOrInsert(p: R -> bool, doc: R) returns (id: Id)
      requires Valid()
      modifies this
      ensures Valid()
      ensures (id, rows, nextId) == FindOrInsertResult(old(rows), old(nextId), p, doc)
    {
      var found := FirstWhere(rows, p);
      if found.Some? {
        id := found.value.id;
      } else {
        id := Insert(doc);
      }
    }

    /** `db.delete(id)`. */
    method Delete(id: Id)
      requires Valid()
      modifies this
      ensures Valid()
      ensures rows == Without(old(rows), id) && nextId == old(nextId)
    {
      WithoutKeepsOrder(rows, id, nextId);
      rows := Without(rows, id);
    }
  }
}
