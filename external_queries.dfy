/**
 * The read-only query the process engine calls for data
 * (convex/internalAPI/externalQueries.ts), selected by a reference name.
 */
module ExternalQueries {
  import opened Wrappers
  import opened JsValues
  import opened Store
  import Recorridos

  /** Reading `.unidad` of `null` (or `undefined`) throws. */
  datatype QueryError = CannotReadUnidad

  /**
   * The unit the query looks for: `variables.unidad` when it is a string.
   * Any other value matches no recorrido, since every stored `unidad` is a
   * string.
   */
  function UnidadOf(variables: Value): Option<string>
  {
    match Prop(variables, "unidad")
    case Str(s) => Some(s)
    case _ => None
  }

  /**
   * `getData`: for "recorridosAnteriores" the two newest recorridos of
   * `variables.unidad`; for any other reference nothing (`Ok(None)`).
   */
  function GetData(recorridos: Table<Recorridos.Recorrido>, reference: string, variables: Value)
    : (r: Result<Option<seq<Row<Recorridos.Recorrido>>>, QueryError>)
    reads recorridos
    requires recorridos.Valid()
    ensures reference != "recorridosAnteriores" ==> r == Ok(None)
    ensures reference == "recorridosAnteriores" ==> (r.Err? <==> variables.Null? || variables.Undefined?)
    ensures reference == "recorridosAnteriores" && UnidadOf(variables).Some? ==>
      r == Ok(Some(Recorridos.Anteriores(recorridos.rows, UnidadOf(variables).value)))
    ensures reference == "recorridosAnteriores" && !variables.Null? && !variables.Undefined? && UnidadOf(variables).None? ==>
      r == Ok(Some([]))
    ensures r.Ok? && r.value.Some? ==> var rows := r.value.value;
      |rows| <= 2
      && (forall k :: 0 <= k < |rows| ==> UnidadOf(variables) == Some(rows[k].doc.unidad) && HasId(recorridos.rows, rows[k].id))
      && (forall k, l :: 0 <= k < l < |rows| ==> rows[k].id > rows[l].id)
  {
    if reference != "recorridosAnteriores" then Ok(None)
    else if variables.Null? || variables.Undefined? then Err(CannotReadUnidad)
    else match UnidadOf(variables)
      case None => Ok(Some([]))
      case Some(unidad) =>
        Recorridos.AnterioresSpec(recorridos.rows, recorridos.nextId, unidad);
        LatestWhereFromRows(recorridos.rows, Recorridos.HasUnidad(unidad), 2);
        Ok(Some(Recorridos.Anteriores(recorridos.rows, unidad)))
  }
}
