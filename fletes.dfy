/** Freight jobs, keyed by carta porte, load and tramo (convex/internalAPI/fletes.ts). */
module Fletes {
  import opened Wrappers
  import opened Store

  datatype Flete = Flete(
    cartaPorte: string,
    load: string,
    vacio: bool,
    cliente: Id,
    tramo: Id,
    stops: seq<string>,
    tarifa: Option<int>)

  /** The `by_cartaPorte_load_tramo` equality test. */
  function HasKey(cartaPorte: string, load: string, tramo: Id): Flete -> bool
  {
    (f: Flete) => f.cartaPorte == cartaPorte && f.load == load && f.tramo == tramo
  }

  /** `getAllFletes`: at most `limit` (50 when absent) jobs, newest first. */
  function GetAllFletes(fletes: Table<Flete>, limit: Option<nat>): (r: seq<Row<Flete>>)
    reads fletes
    ensures |r| == if limit.UnwrapOr(50) < |fletes.rows| then limit.UnwrapOr(50) else |fletes.rows|
    ensures forall i :: 0 <= i < |r| ==> r[i] == fletes.rows[|fletes.rows| - 1 - i]
  {
    Take(Newest(fletes.rows), limit.UnwrapOr(50))
  }

  /** `addFlete`: the tariff is required here. */
  method AddFlete(fletes: Table<Flete>, cartaPorte: string, load: string, vacio: bool, cliente: Id, tramo: Id,
                  stops: seq<string>, tarifa: int) returns (id: Id)
    requires fletes.Valid()
    modifies fletes
    ensures fletes.Valid()
    ensures id == old(fletes.nextId)
    ensures fletes.rows == old(fletes.rows) + [Row(id, Flete(cartaPorte, load, vacio, cliente, tramo, stops, Some(tarifa)))]
    ensures fletes.nextId == old(fletes.nextId) + 1
  {
    id := fletes.Insert(Flete(cartaPorte, load, vacio, cliente, tramo, stops, Some(tarifa)));
  }

  /**
   * `findOrCreateFlete`: an existing job with the same carta porte, load
   * and tramo is returned untouched (its customer, stops and tariff are
   * not compared or updated); otherwise the job is inserted as given.
   */
  method FindOrCreateFlete(fletes: Table<Flete>, f: Flete) returns (id: Id)
    requires fletes.Valid()
    modifies fletes
    ensures fletes.Valid()
    ensures (id, fletes.rows, fletes.nextId)
      == FindOrInsertResult(old(fletes.rows), old(fletes.nextId), HasKey(f.cartaPorte, f.load, f.tramo), f)
  {
    id := fletes.FindOrInsert(HasKey(f.cartaPorte, f.load, f.tramo), f);
  }

  /**
   * A job with an existing key leaves the table as it was and returns the
   * stored job's id, whatever its other fields say; a second call with the
   * same key returns the same id.
   */
  lemma FindOrCreateFleteKeepsExisting(rows: seq<Row<Flete>>, next: Id, f: Flete, g: Flete)
    requires g.cartaPorte == f.cartaPorte && g.load == f.load && g.tramo == f.tramo
    ensures var (id1, rows1, next1) := FindOrInsertResult(rows, next, HasKey(f.cartaPorte, f.load, f.tramo), f);
      FindOrInsertResult(rows1, next1, HasKey(g.cartaPorte, g.load, g.tramo), g) == (id1, rows1, next1)
    ensures FirstWhere(rows, HasKey(f.cartaPorte, f.load, f.tramo)).Some? ==>
      FindOrInsertResult(rows, next, HasKey(f.cartaPorte, f.load, f.tramo), f).1 == rows
  {
    assert HasKey(g.cartaPorte, g.load, g.tramo) == HasKey(f.cartaPorte, f.load, f.tramo);
    FindOrInsertIdempotent(rows, next, HasKey(f.cartaPorte, f.load, f.tramo), f, g);
  }

  /** The optional fields of `updateFlete`. */
  datatype FleteUpdate = FleteUpdate(
    cartaPorte: Option<string>,
    load: Option<string>,
    vacio: Option<bool>,
    cliente: Option<Id>,
    tramo: Option<Id>,
    stops: Option<seq<string>>,
    tarifa: Option<int>)

  predicate IsEmptyUpdate(u: FleteUpdate)
  {
    u.cartaPorte.None? && u.load.None? && u.vacio.None? && u.cliente.None? && u.tramo.None? && u.stops.None? && u.tarifa.None?
  }

  function PatchFlete(f: Flete, u: FleteUpdate): Flete
  {
    Flete(u.cartaPorte.UnwrapOr(f.cartaPorte), u.load.UnwrapOr(f.load), u.vacio.UnwrapOr(f.vacio),
          u.cliente.UnwrapOr(f.cliente), u.tramo.UnwrapOr(f.tramo), u.stops.UnwrapOr(f.stops),
          if u.tarifa.Some? then u.tarifa else f.tarifa)
  }

  /** An empty update would change nothing, which is why it is refused. */
  lemma EmptyPatchIsIdentity(f: Flete, u: FleteUpdate)
    requires IsEmptyUpdate(u)
    ensures PatchFlete(f, u) == f
  {
  }

  /** `updateFlete`: "No updates provided" when every field is absent, otherwise the patched job. */
  method UpdateFlete(fletes: Table<Flete>, id: Id, u: FleteUpdate) returns (r: Result<Flete, UpdateError>)
    requires fletes.Valid()
    modifies fletes
    ensures fletes.Valid()
    ensures fletes.nextId == old(fletes.nextId)
    ensures IsEmptyUpdate(u) ==> r == Err(NoUpdatesProvided) && fletes.rows == old(fletes.rows)
    ensures !IsEmptyUpdate(u) ==>
      match old(fletes.Get(id))
      case None => r == Err(NoSuchDocument) && fletes.rows == old(fletes.rows)
      case Some(f) => r == Ok(PatchFlete(f, u)) && fletes.rows == Replace(old(fletes.rows), id, PatchFlete(f, u))
  {
    if IsEmptyUpdate(u) {
      return Err(NoUpdatesProvided);
    }
    var current := fletes.Get(id);
    if current.None? {
      return Err(NoSuchDocument);
    }
    var patched := PatchFlete(current.value, u);
    fletes.Put(id, patched);
    r := Ok(patched);
  }

  /** `deleteFlete`. */
  method DeleteFlete(fletes: Table<Flete>, id: Id) returns (success: bool)
    requires fletes.Valid()
    modifies fletes
    ensures fletes.Valid() && success
    ensures fletes.nextId == old(fletes.nextId)
    ensures fletes.rows == Without(old(fletes.rows), id)
  {
    fletes.Delete(id);
    success := true;
  }
}
