/** Customers, found by RFC or by name (convex/internalAPI/clientes.ts). */
module Clientes {
  import opened Wrappers
  import opened Store

  datatype Cliente = Cliente(name: string, rfc: string)

  function HasRfc(rfc: string): Cliente -> bool
  {
    (c: Cliente) => c.rfc == rfc
  }

  function HasName(name: string): Cliente -> bool
  {
    (c: Cliente) => c.name == name
  }

  /** `findClienteByRfc`: the oldest customer with this RFC. */
  function FindClienteByRfc(clientes: Table<Cliente>, rfc: string): (r: Option<Row<Cliente>>)
    reads clientes
    ensures r.Some? ==>
      exists i :: 0 <= i < |clientes.rows| && clientes.rows[i] == r.value
        && r.value.doc.rfc == rfc && forall j :: 0 <= j < i ==> clientes.rows[j].doc.rfc != rfc
    ensures r.None? <==> forall i :: 0 <= i < |clientes.rows| ==> clientes.rows[i].doc.rfc != rfc
  {
    FirstWhere(clientes.rows, HasRfc(rfc))
  }

  /** `findClienteByName`: the oldest customer with this name. */
  function FindClienteByName(clientes: Table<Cliente>, name: string): (r: Option<Row<Cliente>>)
    reads clientes
    ensures r.Some? ==>
      exists i :: 0 <= i < |clientes.rows| && clientes.rows[i] == r.value
        && r.value.doc.name == name && forall j :: 0 <= j < i ==> clientes.rows[j].doc.name != name
    ensures r.None? <==> forall i :: 0 <= i < |clientes.rows| ==> clientes.rows[i].doc.name != name
  {
    FirstWhere(clientes.rows, HasName(name))
  }

  /** `getAllClientes`: at most `limit` (50 when absent) customers, newest first. */
  function GetAllClientes(clientes: Table<Cliente>, limit: Option<nat>): (r: seq<Row<Cliente>>)
    reads clientes
    ensures |r| == if limit.UnwrapOr(50) < |clientes.rows| then limit.UnwrapOr(50) else |clientes.rows|
    ensures forall i :: 0 <= i < |r| ==> r[i] == clientes.rows[|clientes.rows| - 1 - i]
  {
    Take(Newest(clientes.rows), limit.UnwrapOr(50))
  }

  /** `addCliente`. */
  method AddCliente(clientes: Table<Cliente>, name: string, rfc: string) returns (id: Id)
    requires clientes.Valid()
    modifies clientes
    ensures clientes.Valid()
    ensures id == old(clientes.nextId) && clientes.rows == old(clientes.rows) + [Row(id, Cliente(name, rfc))]
    ensures clientes.nextId == old(clientes.nextId) + 1
  {
    id := clientes.Insert(Cliente(name, rfc));
  }

  /** `findOrCreateCliente`: the existing customer with this name, or a new one with an empty RFC. */
  method FindOrCreateCliente(clientes: Table<Cliente>, name: string) returns (id: Id)
    requires clientes.Valid()
    modifies clientes
    ensures clientes.Valid()
    ensures (id, clientes.rows, clientes.nextId)
      == FindOrInsertResult(old(clientes.rows), old(clientes.nextId), HasName(name), Cliente(name, ""))
  {
    id := clientes.FindOrInsert(HasName(name), Cliente(name, ""));
  }

  /**
   * Repeating `findOrCreateCliente` for one name returns the same id and
   * inserts nothing more; the returned customer carries that name and
   * no name gains a second customer.
   */
  lemma FindOrCreateClienteIdempotent(rows: seq<Row<Cliente>>, next: Id, name: string)
    requires IdsIncreasing(rows) && IdsBelow(rows, next) && CountWhere(rows, HasName(name)) <= 1
    ensures var (id1, rows1, next1) := FindOrInsertResult(rows, next, HasName(name), Cliente(name, ""));
      FindOrInsertResult(rows1, next1, HasName(name), Cliente(name, "")) == (id1, rows1, next1)
      && CountWhere(rows1, HasName(name)) <= 1
      && Lookup(rows1, id1).Some? && Lookup(rows1, id1).value.name == name
  {
    FindOrInsertIdempotent(rows, next, HasName(name), Cliente(name, ""), Cliente(name, ""));
    FindOrInsertKeepsKeyUnique(rows, next, HasName(name), Cliente(name, ""));
  }

  /** `updateCliente`: "No updates provided" when both fields are absent, otherwise the patched customer. */
  method UpdateCliente(clientes: Table<Cliente>, id: Id, name: Option<string>, rfc: Option<string>)
    returns (r: Result<Cliente, UpdateError>)
    requires clientes.Valid()
    modifies clientes
    ensures clientes.Valid()
    ensures clientes.nextId == old(clientes.nextId)
    ensures name.None? && rfc.None? ==> r == Err(NoUpdatesProvided) && clientes.rows == old(clientes.rows)
    ensures (name.Some? || rfc.Some?) ==>
      match old(clientes.Get(id))
      case None => r == Err(NoSuchDocument) && clientes.rows == old(clientes.rows)
      case Some(c) => var p := Cliente(name.UnwrapOr(c.name), rfc.UnwrapOr(c.rfc));
        r == Ok(p) && clientes.rows == Replace(old(clientes.rows), id, p)
  {
    if name.None? && rfc.None? {
      return Err(NoUpdatesProvided);
    }
    var current := clientes.Get(id);
    if current.None? {
      return Err(NoSuchDocument);
    }
    var patched := Cliente(name.UnwrapOr(current.value.name), rfc.UnwrapOr(current.value.rfc));
    clientes.Put(id, patched);
    r := Ok(patched);
  }

  /** `deleteCliente`. */
  method DeleteCliente(clientes: Table<Cliente>, id: Id) returns (success: bool)
    requires clientes.Valid()
    modifies clientes
    ensures clientes.Valid() && success
    ensures clientes.nextId == old(clientes.nextId)
    ensures clientes.rows == Without(old(clientes.rows), id)
  {
    clientes.Delete(id);
    success := true;
  }
}
