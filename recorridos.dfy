/**
 * Trips of a unit over a route segment (convex/internalAPI/recorridos.ts):
 * inserted directly or after reusing or creating the segment, deleted,
 * and read back as the two newest trips of a unit with their segment and
 * freight details.
 */
module Recorridos {
  import opened Wrappers
  import opened Store
  import Tramos
  import Fletes

  datatype Recorrido = Recorrido(
    tramo: Id,
    inicio: int,
    fin: int,
    flete: Id,
    caja: string,
    unidad: string,
    operador: string)

  /** The `by_unidad` equality test. */
  function HasUnidad(unidad: string): Recorrido -> bool
  {
    (r: Recorrido) => r.unidad == unidad
  }

  /** `addRecorrido`: inserts exactly one recorrido holding the given fields. */
  method AddRecorrido(recorridos: Table<Recorrido>, r: Recorrido) returns (id: Id)
    requires recorridos.Valid()
    modifies recorridos
    ensures recorridos.Valid()
    ensures id == old(recorridos.nextId) && recorridos.rows == old(recorridos.rows) + [Row(id, r)]
    ensures recorridos.nextId == old(recorridos.nextId) + 1
  {
    id := recorridos.Insert(r);
  }

  /** `args.kms || 0` for an optional whole number of kilometres. */
  function KmsOrZero(kms: Option<int>): (k: int)
    ensures k == kms.UnwrapOr(0)
  {
    if kms.Some? && kms.value != 0 then kms.value else 0
  }

  /**
   * `addRecorridoWithOrigenDestino`: the segment is found or created with
   * exactly the outcome of `findOrCreateTramo`, then one recorrido that
   * points at it is inserted.
   */
  method AddRecorridoWithOrigenDestino(tramos: Table<Tramos.Tramo>, recorridos: Table<Recorrido>,
                                       origen: string, destino: string, inicio: int, fin: int,
                                       flete: Id, caja: string, unidad: string, operador: string,
                                       kms: Option<int>)
    returns (id: Id)
    requires tramos.Valid() && recorridos.Valid()
    modifies tramos, recorridos
    ensures tramos.Valid() && recorridos.Valid()
    ensures var (tramoId, tramoRows, tramoNext) :=
        FindOrInsertResult(old(tramos.rows), old(tramos.nextId), Tramos.HasEnds(origen, destino),
                           Tramos.NewTramo(origen, destino, kms.UnwrapOr(0)));
      tramos.rows == tramoRows && tramos.nextId == tramoNext
      && id == old(recorridos.nextId)
      && recorridos.rows == old(recorridos.rows) + [Row(id, Recorrido(tramoId, inicio, fin, flete, caja, unidad, operador))]
  {
    var existing := FirstWhere(tramos.rows, Tramos.HasEnds(origen, destino));
    var tramoId;
    if existing.Some? {
      tramoId := existing.value.id;
    } else {
      tramoId := tramos.Insert(Tramos.Tramo(origen + " - " + destino, origen, destino, KmsOrZero(kms)));
    }
    id := recorridos.Insert(Recorrido(tramoId, inicio, fin, flete, caja, unidad, operador));
  }

  /**
   * The segments grow by at most one document, the new recorrido points at
   * a segment with the requested ends, and that segment stays the only one
   * with those ends when it was before.
   */
  lemma AddRecorridoWithOrigenDestinoGrowth(rows: seq<Row<Tramos.Tramo>>, next: Id, origen: string, destino: string, kms: Option<int>)
    requires IdsIncreasing(rows) && IdsBelow(rows, next) && CountWhere(rows, Tramos.HasEnds(origen, destino)) <= 1
    ensures var (tramoId, rows1, _) := FindOrInsertResult(rows, next, Tramos.HasEnds(origen, destino),
                                                          Tramos.NewTramo(origen, destino, kms.UnwrapOr(0)));
      |rows| <= |rows1| <= |rows| + 1
      && CountWhere(rows1, Tramos.HasEnds(origen, destino)) <= 1
      && Lookup(rows1, tramoId).Some?
      && Lookup(rows1, tramoId).value.origen == origen && Lookup(rows1, tramoId).value.destino == destino
  {
    Tramos.FindOrCreateTramoKeepsPairsUnique(rows, next, origen, destino, kms.UnwrapOr(0));
  }

  /** `deleteRecorrido`: removes the recorrido and reports success. */
  method DeleteRecorrido(recorridos: Table<Recorrido>, id: Id) returns (success: bool)
    requires recorridos.Valid()
    modifies recorridos
    ensures recorridos.Valid() && success
    ensures recorridos.nextId == old(recorridos.nextId)
    ensures recorridos.rows == Without(old(recorridos.rows), id)
  {
    recorridos.Delete(id);
    success := true;
  }

  /** A recorrido spread with `origen`/`destino` of its tramo and `load`/`cartaPorte` of its flete. */
  datatype RecorridoDetalle = RecorridoDetalle(
    id: Id,
    recorrido: Recorrido,
    origen: Option<string>,
    destino: Option<string>,
    load: Option<string>,
    cartaPorte: Option<string>)

  /** `tramo?.origen` and its siblings: absent when the referenced document is missing. */
  function Detalle(row: Row<Recorrido>, tramos: seq<Row<Tramos.Tramo>>, fletes: seq<Row<Fletes.Flete>>): (d: RecorridoDetalle)
    ensures d.id == row.id && d.recorrido == row.doc
    ensures d.origen.Some? <==> HasId(tramos, row.doc.tramo)
    ensures d.load.Some? <==> HasId(fletes, row.doc.flete)
    ensures d.origen.Some? ==> d.origen.value == Lookup(tramos, row.doc.tramo).value.origen
    ensures d.destino.Some? && d.origen.Some? ==> d.destino.value == Lookup(tramos, row.doc.tramo).value.destino
    ensures d.load.Some? ==> d.load.value == Lookup(fletes, row.doc.flete).value.load
    ensures d.cartaPorte.Some? && d.load.Some? ==> d.cartaPorte.value == Lookup(fletes, row.doc.flete).value.cartaPorte
    ensures d.destino.Some? == d.origen.Some? && d.cartaPorte.Some? == d.load.Some?
  {
    var t := Lookup(tramos, row.doc.tramo);
    var f := Lookup(fletes, row.doc.flete);
    RecorridoDetalle(row.id, row.doc,
      if t.Some? then Some(t.value.origen) else None,
      if t.Some? then Some(t.value.destino) else None,
      if f.Some? then Some(f.value.load) else None,
      if f.Some? then Some(f.value.cartaPorte) else None)
  }

  /** The two newest recorridos of `unidad`, newest first. */
  function Anteriores(recorridos: seq<Row<Recorrido>>, unidad: string): seq<Row<Recorrido>>
  {
    LatestWhere(recorridos, HasUnidad(unidad), 2)
  }

  /**
   * The two newest recorridos are all of the unit's when it has fewer, are
   * stored rows of the unit, come newest first, and every recorrido of the
   * unit left out is older than both.
   */
  lemma AnterioresSpec(recorridos: seq<Row<Recorrido>>, next: Id, unidad: string)
    requires IdsIncreasing(recorridos) && IdsBelow(recorridos, next)
    ensures var r := Anteriores(recorridos, unidad);
      |r| == (if CountWhere(recorridos, HasUnidad(unidad)) < 2 then CountWhere(recorridos, HasUnidad(unidad)) else 2)
      && (forall k :: 0 <= k < |r| ==> r[k] in recorridos && r[k].doc.unidad == unidad)
      && (forall k, l :: 0 <= k < l < |r| ==> r[k].id > r[l].id)
      && (forall i, k ::
            0 <= i < |recorridos| && recorridos[i].doc.unidad == unidad && recorridos[i] !in r && 0 <= k < |r|
            ==> recorridos[i].id < r[k].id)
  {
    LatestWhereSpec(recorridos, HasUnidad(unidad), 2, next);
    LatestWhereTakesRows(recorridos, HasUnidad(unidad), 2);
    LatestWhereSkipsOlder(recorridos, HasUnidad(unidad), 2);
  }

  /** `getRecorridosAnteriores`: the unit's two newest recorridos, each with its details. */
  function GetRecorridosAnteriores(recorridos: Table<Recorrido>, tramos: Table<Tramos.Tramo>,
                                   fletes: Table<Fletes.Flete>, unidad: string): (r: seq<RecorridoDetalle>)
    reads recorridos, tramos, fletes
    requires recorridos.Valid()
    ensures |r| == |Anteriores(recorridos.rows, unidad)| <= 2
    ensures forall k :: 0 <= k < |r| ==> r[k] == Detalle(Anteriores(recorridos.rows, unidad)[k], tramos.rows, fletes.rows)
    ensures forall k :: 0 <= k < |r| ==> r[k].recorrido.unidad == unidad && HasId(recorridos.rows, r[k].id)
    ensures forall k, l :: 0 <= k < l < |r| ==> r[k].id > r[l].id
    ensures forall k :: 0 <= k < |r| ==> (r[k].origen.Some? <==> HasId(tramos.rows, r[k].recorrido.tramo))
    ensures forall k :: 0 <= k < |r| ==> (r[k].load.Some? <==> HasId(fletes.rows, r[k].recorrido.flete))
  {
    var rows := Anteriores(recorridos.rows, unidad);
    AnterioresSpec(recorridos.rows, recorridos.nextId, unidad);
    LatestWhereFromRows(recorridos.rows, HasUnidad(unidad), 2);
    var tramoRows := tramos.rows;
    var fleteRows := fletes.rows;
    var r := seq(|rows|, k requires 0 <= k < |rows| => Detalle(rows[k], tramoRows, fleteRows));
    assert forall k :: 0 <= k < |r| ==> r[k] == Detalle(rows[k], tramoRows, fleteRows);
    r
  }
}
