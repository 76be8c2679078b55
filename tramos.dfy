/** Route segments between an origin and a destination (convex/internalAPI/tramos.ts). */
module Tramos {
  import opened Wrappers
  import opened Store

  datatype Tramo = Tramo(name: string, origen: string, destino: string, kms: int)

  /** The `by_origen_destino` equality test. */
  function HasEnds(origen: string, destino: string): Tramo -> bool
  {
    (t: Tramo) => t.origen == origen && t.destino == destino
  }

  /** The tramo `findOrCreateTramo` inserts: named "origen - destino". */
  function NewTramo(origen: string, destino: string, kms: int): (t: Tramo)
    ensures HasEnds(origen, destino)(t)
  {
    Tramo(origen + " - " + destino, origen, destino, kms)
  }

  /** `findTramoByOrigenDestino`: the oldest tramo with these ends. */
  function FindTramoByOrigenDestino(tramos: Table<Tramo>, origen: string, destino: string): (r: Option<Row<Tramo>>)
    reads tramos
    ensures r.Some? ==>
      exists i :: 0 <= i < |tramos.rows| && tramos.rows[i] == r.value
        && r.value.doc.origen == origen && r.value.doc.destino == destino
        && forall j :: 0 <= j < i ==> !(tramos.rows[j].doc.origen == origen && tramos.rows[j].doc.destino == destino)
    ensures r.None? <==> forall i :: 0 <= i < |tramos.rows| ==> !(tramos.rows[i].doc.origen == origen && tramos.rows[i].doc.destino == destino)
  {
    FirstWhere(tramos.rows, HasEnds(origen, destino))
  }

  /** `getAllTramos`: at most `limit` (50 when absent) tramos, newest first. */
  function GetAllTramos(tramos: Table<Tramo>, limit: Option<nat>): (r: seq<Row<Tramo>>)
    reads tramos
    ensures |r| == if limit.UnwrapOr(50) < |tramos.rows| then limit.UnwrapOr(50) else |tramos.rows|
    ensures forall i :: 0 <= i < |r| ==> r[i] == tramos.rows[|tramos.rows| - 1 - i]
  {
    Take(Newest(tramos.rows), limit.UnwrapOr(50))
  }

  /** `addTramo`. */
  method AddTramo(tramos: Table<Tramo>, name: string, origen: string, destino: string, kms: int) returns (id: Id)
    requires tramos.Valid()
    modifies tramos
    ensures tramos.Valid()
    ensures id == old(tramos.nextId) && tramos.rows == old(tramos.rows) + [Row(id, Tramo(name, origen, destino, kms))]
    ensures tramos.nextId == old(tramos.nextId) + 1
  {
    id := tramos.Insert(Tramo(name, origen, destino, kms));
  }

  /** `findOrCreateTramo`: the existing tramo's id, or a new tramo with `kms` defaulting to 0. */
  method FindOrCreateTramo(tramos: Table<Tramo>, origen: string, destino: string, kms: Option<int>) returns (id: Id)
    requires tramos.Valid()
    modifies tramos
    ensures tramos.Valid()
    ensures (id, tramos.rows, tramos.nextId)
      == FindOrInsertResult(old(tramos.rows), old(tramos.nextId), HasEnds(origen, destino), NewTramo(origen, destino, kms.UnwrapOr(0)))
  {
    id := tramos.FindOrInsert(HasEnds(origen, destino), NewTramo(origen, destino, kms.UnwrapOr(0)));
  }

  /** Calling `findOrCreateTramo` twice with the same ends returns one id and inserts at most once. */
  lemma FindOrCreateTramoIdempotent(rows: seq<Row<Tramo>>, next: Id, origen: string, destino: string, k1: int, k2: int)
    ensures var (id1, rows1, next1) := FindOrInsertResult(rows, next, HasEnds(origen, destino), NewTramo(origen, destino, k1));
      FindOrInsertResult(rows1, next1, HasEnds(origen, destino), NewTramo(origen, destino, k2)) == (id1, rows1, next1)
      && |rows1| <= |rows| + 1
  {
    FindOrInsertIdempotent(rows, next, HasEnds(origen, destino), NewTramo(origen, destino, k1), NewTramo(origen, destino, k2));
  }

  /** Every origin/destination pair created through `findOrCreateTramo` has at most one tramo. */
  lemma FindOrCreateTramoKeepsPairsUnique(rows: seq<Row<Tramo>>, next: Id, origen: string, destino: string, kms: int)
    requires IdsIncreasing(rows) && IdsBelow(rows, next) && CountWhere(rows, HasEnds(origen, destino)) <= 1
    ensures var (id, rows1, _) := FindOrInsertResult(rows, next, HasEnds(origen, destino), NewTramo(origen, destino, kms));
      CountWhere(rows1, HasEnds(origen, destino)) <= 1
      && Lookup(rows1, id).Some? && Lookup(rows1, id).value.origen == origen && Lookup(rows1, id).value.destino == destino
  {
    FindOrInsertKeepsKeyUnique(rows, next, HasEnds(origen, destino), NewTramo(origen, destino, kms));
  }

  /** The fields `updateTramo` was given, over the stored tramo. */
  function PatchTramo(t: Tramo, name: Option<string>, origen: Option<string>, destino: Option<string>, kms: Option<int>): Tramo
  {
    Tramo(name.UnwrapOr(t.name), origen.UnwrapOr(t.origen), destino.UnwrapOr(t.destino), kms.UnwrapOr(t.kms))
  }

  /** A patch changes exactly the fields it was given. */
  lemma PatchTramoChangesGivenFields(t: Tramo, name: Option<string>, origen: Option<string>, destino: Option<string>, kms: Option<int>)
    ensures var p := PatchTramo(t, name, origen, destino, kms);
      (name.Some? ==> p.name == name.value) && (name.None? ==> p.name == t.name)
      && (origen.Some? ==> p.origen == origen.value) && (origen.None? ==> p.origen == t.origen)
      && (destino.Some? ==> p.destino == destino.value) && (destino.None? ==> p.destino == t.destino)
      && (kms.Some? ==> p.kms == kms.value) && (kms.None? ==> p.kms == t.kms)
    ensures name.None? && origen.None? && destino.None? && kms.None? ==> PatchTramo(t, name, origen, destino, kms) == t
  {
  }

  /**
   * `updateTramo`: fails with "No updates provided" when every field is
   * absent, otherwise patches the tramo and returns it as stored.
   */
  method UpdateTramo(tramos: Table<Tramo>, id: Id, name: Option<string>, origen: Option<string>, destino: Option<string>, kms: Option<int>)
    returns (r: Result<Tramo, UpdateError>)
    requires tramos.Valid()
    modifies tramos
    ensures tramos.Valid()
    ensures tramos.nextId == old(tramos.nextId)
    ensures name.None? && origen.None? && destino.None? && kms.None? ==> r == Err(NoUpdatesProvided) && tramos.rows == old(tramos.rows)
    ensures (name.Some? || origen.Some? || destino.Some? || kms.Some?) ==>
      match old(tramos.Get(id))
      case None => r == Err(NoSuchDocument) && tramos.rows == old(tramos.rows)
      case Some(t) => var p := PatchTramo(t, name, origen, destino, kms);
        r == Ok(p) && tramos.rows == Replace(old(tramos.rows), id, p)
  {
    if name.None? && origen.None? && destino.None? && kms.None? {
      return Err(NoUpdatesProvided);
    }
    var current := tramos.Get(id);
    if current.None? {
      return Err(NoSuchDocument);
    }
    var patched := PatchTramo(current.value, name, origen, destino, kms);
    tramos.Put(id, patched);
    r := Ok(patched);
  }

  /** `deleteTramo`: removes the tramo and reports success. */
  method DeleteTramo(tramos: Table<Tramo>, id: Id) returns (success: bool)
    requires tramos.Valid()
    modifies tramos
    ensures tramos.Valid() && success
    ensures tramos.nextId == old(tramos.nextId)
    ensures tramos.rows == Without(old(tramos.rows), id)
  {
    tramos.Delete(id);
    success := true;
  }
}
