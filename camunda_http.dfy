/**
 * The HTTP endpoints the process engine calls (convex/externalAPI/camunda.ts):
 * `/createTask`, `/newRecorrido`, `/deleteRecorrido` and
 * `/getRecorridosAnteriores`. A request body is the parsed JSON value, or
 * `None` when it is not JSON; each endpoint's decision is a function of the
 * body, and the handlers run the mutations that decision names.
 */
module CamundaHttp {
  import opened Wrappers
  import opened Strings
  import opened JsValues
  import opened Store
  import TasksApi
  import Tramos
  import Clientes
  import Fletes
  import Recorridos

  // ---------------------------------------------------------------------
  // Loose equality and argument validators

  /**
   * A word of ASCII letters other than "Infinity": `Number(w)` is `NaN`, so
   * no number or boolean is loosely equal to it.
   */
  predicate IsWord(w: string)
  {
    |w| > 0 && (forall i :: 0 <= i < |w| ==> IsAsciiLetter(w[i])) && w != "Infinity"
  }

  lemma KnownWords()
    ensures IsWord("create") && IsWord("NO")
  {
    assert IsAsciiLetter('c') && IsAsciiLetter('r') && IsAsciiLetter('e') && IsAsciiLetter('a') && IsAsciiLetter('t');
    assert IsAsciiLetter('N') && IsAsciiLetter('O');
  }

  /** `v == w` for such a word: strings compare as text, objects through `String(v)`. */
  predicate LooseEqualsWord(v: Value, w: string)
    requires IsWord(w)
  {
    match v
    case Str(s) => s == w
    case Arr(_) => ToJsString(v) == w
    case Obj(_) => ToJsString(v) == w
    case FileRef(_) => ToJsString(v) == w
    case _ => false
  }

  /** `eventName == "create"`, loosely. */
  predicate IsCreateEvent(v: Value)
  {
    KnownWords();
    LooseEqualsWord(v, "create")
  }

  /** `v == "NO"`, loosely. */
  predicate IsNo(v: Value)
  {
    KnownWords();
    LooseEqualsWord(v, "NO")
  }

  lemma LooseEqualsWordExamples()
    ensures IsNo(Str("NO")) && IsNo(Arr([Str("NO")]))
    ensures !IsNo(Str("no")) && !IsNo(Undefined) && !IsCreateEvent(Null)
    ensures !IsCreateEvent(Obj([])) && !IsCreateEvent(Bool(true))
  {
    assert ToJsString(Arr([Str("NO")])) == "NO" by {
      var items := [Str("NO")];
      assert seq(|items|, i requires 0 <= i < |items| =>
        if items[i].Undefined? || items[i].Null? then "" else ToJsString(items[i])) == ["NO"];
    }
  }

  /** What a Convex argument validator makes of one value. */
  datatype Checked<T> = Accepted(value: T) | Rejected

  /** `v.optional(v.string())`: absent, or a string; `null` is rejected. */
  function OptionalString(v: Value): (r: Checked<Option<string>>)
    ensures r.Accepted? <==> v.Undefined? || v.Str?
    ensures r == Accepted(None) <==> v.Undefined?
    ensures r.Accepted? && r.value.Some? ==> v == Str(r.value.value)
  {
    match v
    case Undefined => Accepted(None)
    case Str(s) => Accepted(Some(s))
    case _ => Rejected
  }

  /** `v.optional(v.number())`. */
  function OptionalNumber(v: Value): (r: Checked<Option<int>>)
    ensures r.Accepted? <==> v.Undefined? || v.Num?
    ensures r.Accepted? && r.value.Some? ==> v == Num(r.value.value)
  {
    match v
    case Undefined => Accepted(None)
    case Num(n) => Accepted(Some(n))
    case _ => Rejected
  }

  /** The strings of an array whose elements are all strings. */
  function StringsOf(items: seq<Value>): (r: Option<seq<string>>)
    ensures r.Some? <==> forall i :: 0 <= i < |items| ==> items[i].Str?
    ensures r.Some? ==> |r.value| == |items| && forall i :: 0 <= i < |items| ==> items[i] == Str(r.value[i])
    decreases |items|
  {
    if |items| == 0 then Some([])
    else if !items[0].Str? then None
    else match StringsOf(items[1..])
      case None => None
      case Some(rest) => Some([items[0].s] + rest)
  }

  /** `v.optional(v.array(v.string()))`. */
  function OptionalStrings(v: Value): (r: Checked<Option<seq<string>>>)
    ensures r.Accepted? <==> v.Undefined? || (v.Arr? && StringsOf(v.items).Some?)
  {
    match v
    case Undefined => Accepted(None)
    case Arr(items) => if StringsOf(items).Some? then Accepted(StringsOf(items)) else Rejected
    case _ => Rejected
  }

  /** Destructuring `null` (or `undefined`) throws. */
  predicate Destructurable(body: Option<Value>)
  {
    body.Some? && !body.value.Null? && !body.value.Undefined?
  }

  datatype Response = Response(status: int, body: Value)

  // ---------------------------------------------------------------------
  // POST /createTask

  /**
   * The arguments `/createTask` passes to `addTask`, or `Rejected` when the
   * argument validator refuses one of them.
   */
  function TaskArgs(body: Value, now: int): (r: Checked<TasksApi.TaskFields>)
    ensures r.Accepted? ==> (r.value.isCompleted == Some(false) && r.value.permanent == Some(false)
      && r.value.createdAt == Some(now) && r.value.variables == Prop(body, "variables")
      && (Prop(body, "id").Str? ==> r.value.camundaId == Some(Prop(body, "id").s)))
  {
    var camundaId := OptionalString(Prop(body, "id"));
    var name := OptionalString(Prop(body, "name"));
    var asignee := OptionalString(Prop(body, "asignee"));
    var processInstanceId := OptionalString(Prop(body, "processInstanceId"));
    var businessKey := OptionalString(Prop(body, "businessKey"));
    var candidateUsers := OptionalStrings(Prop(body, "candidateUsers"));
    var candidateGroups := OptionalStrings(Prop(body, "candidateGroups"));
    var processDefinitionId := OptionalString(Prop(body, "processDefinitionId"));
    var priority := OptionalNumber(Prop(body, "priority"));
    var formKey := OptionalString(Prop(body, "formKey"));
    var formRef := OptionalString(Prop(body, "formRef"));
    var taskDefinitionKey := OptionalString(Prop(body, "taskDefinitionKey"));
    if camundaId.Accepted? && name.Accepted? && asignee.Accepted? && processInstanceId.Accepted?
       && businessKey.Accepted? && candidateUsers.Accepted? && candidateGroups.Accepted?
       && processDefinitionId.Accepted? && priority.Accepted? && formKey.Accepted?
       && formRef.Accepted? && taskDefinitionKey.Accepted?
    then
      Accepted(TasksApi.TaskFields(camundaId.value, name.value, asignee.value, processInstanceId.value,
        businessKey.value, candidateUsers.value, candidateGroups.value, processDefinitionId.value,
        priority.value, formKey.value, formRef.value, taskDefinitionKey.value, Prop(body, "variables"),
        Some(false), Some(now), Some(false)))
    else Rejected
  }

  datatype CreateTaskOutcome =
    | Ignored(eventName: Value)       // 200, nothing created
    | MissingId                       // 400
    | Create(fields: TasksApi.TaskFields)  // 201 after `addTask`
    | CreateFailed                    // 500

  /**
   * The `/createTask` decision. The event name is checked first: anything
   * but "create" is acknowledged with 200 whatever the id. Then a falsy or
   * blank id gives 400; an id that is truthy but not a string makes
   * `id.trim()` throw, and arguments the validator refuses make `addTask`
   * throw, both 500.
   */
  function CreateTaskDecision(body: Option<Value>, now: int): (o: CreateTaskOutcome)
    ensures !Destructurable(body) ==> o == CreateFailed
  {
    if !Destructurable(body) then CreateFailed
    else Decide(Prop(body.value, "eventName"), Prop(body.value, "id"), TaskArgs(body.value, now))
  }

  /** The `/createTask` decision once the event name, the id and the validated arguments are known. */
  function Decide(eventName: Value, id: Value, args: Checked<TasksApi.TaskFields>): (o: CreateTaskOutcome)
    ensures o.Ignored? <==> !IsCreateEvent(eventName)
    ensures o.MissingId? <==> (IsCreateEvent(eventName)
      && (!Truthy(id) || (id.Str? && AllSpace(id.s))))
    ensures o.Create? <==> (IsCreateEvent(eventName) && id.Str? && !AllSpace(id.s) && args.Accepted?)
    ensures o.Create? ==> o.fields == args.value
  {
    TrimEmptyIffAllSpace(if id.Str? then id.s else "");
    if !IsCreateEvent(eventName) then Ignored(eventName)
    else if !Truthy(id) then MissingId
    else if !id.Str? then CreateFailed
    else if Trim(id.s) == "" then MissingId
    else match args
      case Accepted(fields) => Create(fields)
      case Rejected => CreateFailed
  }

  function CreateTaskResponse(o: CreateTaskOutcome): (r: Response)
    ensures r.status == match o
      case Ignored(_) => 200
      case MissingId => 400
      case Create(_) => 201
      case CreateFailed => 500
  {
    match o
    case Ignored(eventName) =>
      Response(200, Obj([Field("sucess", Bool(true)),
                         Field("message", Str("Event " + ToJsString(eventName) + " received, nothing created"))]))
    case MissingId => Response(400, Obj([Field("error", Str("Id is not present or is Empty"))]))
    case Create(f) =>
      Response(201, Obj([Field("success", Bool(true)), Field("message", Str("Task added successfully")),
        Field("task", Obj([Field("camundaId", OptStr(f.camundaId)), Field("name", OptStr(f.name)),
                           Field("taskDefinitionKey", OptStr(f.taskDefinitionKey)), Field("variables", f.variables)]))]))
    case CreateFailed => Response(500, Obj([Field("error", Str("Failed to add task"))]))
  }

  function OptStr(s: Option<string>): Value
  {
    if s.Some? then Str(s.value) else Undefined
  }

  /** `/createTask`: calls `addTask` once exactly when the answer is 201, and changes nothing otherwise. */
  method CreateTask(tasks: Table<TasksApi.Task>, body: Option<Value>, now: int) returns (resp: Response)
    requires tasks.Valid()
    modifies tasks
    ensures tasks.Valid()
    ensures resp == CreateTaskResponse(CreateTaskDecision(body, now))
    ensures match CreateTaskDecision(body, now)
      case Create(f) => tasks.rows == old(tasks.rows) + [Row(old(tasks.nextId), TasksApi.NewTask(f, now))]
      case _ => tasks.rows == old(tasks.rows) && tasks.nextId == old(tasks.nextId)
  {
    var outcome := CreateTaskDecision(body, now);
    if outcome.Create? {
      TasksApi.AddTask(tasks, outcome.fields, now);
    }
    resp := CreateTaskResponse(outcome);
  }

  // ---------------------------------------------------------------------
  // POST /newRecorrido

  /** `stops == "NO" ? [] : stops.split(",")`; `None` where `split` is not a function and throws. */
  function ParseStops(stops: Value): (r: Option<seq<string>>)
    ensures IsNo(stops) ==> r == Some([])
    ensures stops.Str? && stops.s != "NO" ==> (r.Some? && |r.value| >= 1 && Join(r.value, ',') == stops.s
      && forall k :: 0 <= k < |r.value| ==> ',' !in r.value[k])
    ensures r.None? <==> !IsNo(stops) && !stops.Str?
  {
    if IsNo(stops) then Some([])
    else if stops.Str? then
      SplitJoin(stops.s, ',');
      Some(Split(stops.s, ','))
    else None
  }

  /** `vacio == "NO" ? false : true`: only a value loosely equal to "NO" means loaded; an absent flag means empty. */
  function Vacio(vacio: Value): (r: bool)
    ensures r <==> !IsNo(vacio)
    ensures vacio.Str? ==> (r <==> vacio.s != "NO")
    ensures vacio.Undefined? ==> r
  {
    !IsNo(vacio)
  }

  /** The four tables `/newRecorrido` writes. */
  datatype Db = Db(
    tramos: Snap<Tramos.Tramo>,
    clientes: Snap<Clientes.Cliente>,
    fletes: Snap<Fletes.Flete>,
    recorridos: Snap<Recorridos.Recorrido>)

  predicate DbValid(db: Db)
  {
    SnapValid(db.tramos) && SnapValid(db.clientes) && SnapValid(db.fletes) && SnapValid(db.recorridos)
  }

  /** `findOrCreateTramo({origen, destino})` on a snapshot: the tramo's id and the new tramos. */
  function TramoStep(t: Snap<Tramos.Tramo>, origen: string, destino: string): (Id, Snap<Tramos.Tramo>)
  {
    var (id, rows, next) := FindOrInsertResult(t.rows, t.next, Tramos.HasEnds(origen, destino), Tramos.NewTramo(origen, destino, 0));
    (id, Snap(rows, next))
  }

  function ClienteStep(c: Snap<Clientes.Cliente>, name: string): (Id, Snap<Clientes.Cliente>)
  {
    var (id, rows, next) := FindOrInsertResult(c.rows, c.next, Clientes.HasName(name), Clientes.Cliente(name, ""));
    (id, Snap(rows, next))
  }

  function FleteStep(f: Snap<Fletes.Flete>, flete: Fletes.Flete): (Id, Snap<Fletes.Flete>)
  {
    var (id, rows, next) := FindOrInsertResult(f.rows, f.next, Fletes.HasKey(flete.cartaPorte, flete.load, flete.tramo), flete);
    (id, Snap(rows, next))
  }

  /** The recorrido `/newRecorrido` inserts, when its fields pass the validator. */
  function RecorridoArgs(b: Value, tramo: Id, flete: Id): Option<Recorridos.Recorrido>
  {
    var inicio := Prop(b, "inicioSegMs");
    var fin := Prop(b, "finalSegMs");
    var caja := Prop(b, "caja");
    var unidad := Prop(b, "unidad");
    var operador := Prop(b, "operador");
    if inicio.Num? && fin.Num? && caja.Str? && unidad.Str? && operador.Str?
    then Some(Recorridos.Recorrido(tramo, inicio.n, fin.n, flete, caja.s, unidad.s, operador.s))
    else None
  }

  /** The flete `/newRecorrido` finds or creates, when its fields pass the validator. */
  function FleteArgs(b: Value, cliente: Id, tramo: Id): Option<Fletes.Flete>
  {
    var cartaPorte := Prop(b, "cartaPorte");
    var load := Prop(b, "load");
    var tarifa := OptionalNumber(Prop(b, "tarifa"));
    var stops := ParseStops(Prop(b, "stops"));
    if stops.Some? && cartaPorte.Str? && load.Str? && tarifa.Accepted?
    then Some(Fletes.Flete(cartaPorte.s, load.s, Vacio(Prop(b, "vacio")), cliente, tramo, stops.value, tarifa.value))
    else None
  }

  /** The last document of a non-empty table. */
  function Newest<R>(t: Snap<R>): R
    requires |t.rows| > 0
  {
    t.rows[|t.rows| - 1].doc
  }

  /**
   * `/newRecorrido` as one function of the tables and the body: the tramo
   * of the recorrido, the tramo of the flete, the cliente, the flete and
   * the recorrido are written in this order, each in its own mutation, so
   * a failing step answers 500 and keeps what the earlier steps wrote.
   */
  function NewRecorridoEffect(db: Db, body: Option<Value>): (Db, int)
  {
    if !Destructurable(body) then (db, 500) else RecorridoTramoStage(db, body.value)
  }

  /** `findOrCreateTramo(origenRecorrido, destinoRecorrido)`, then the rest. */
  function RecorridoTramoStage(db: Db, b: Value): (Db, int)
  {
    var o := Prop(b, "origenRecorrido");
    var d := Prop(b, "destinoRecorrido");
    if !(o.Str? && d.Str?) then (db, 500)
    else
      var (tramoRecorrido, t1) := TramoStep(db.tramos, o.s, d.s);
      FleteTramoStage(db.(tramos := t1), b, tramoRecorrido)
  }

  /** `findOrCreateTramo(origenFlete, destinoFlete)`, then the rest. */
  function FleteTramoStage(db: Db, b: Value, tramoRecorrido: Id): (Db, int)
  {
    var o := Prop(b, "origenFlete");
    var d := Prop(b, "destinoFlete");
    if !(o.Str? && d.Str?) then (db, 500)
    else
      var (tramoFlete, t2) := TramoStep(db.tramos, o.s, d.s);
      ClienteStage(db.(tramos := t2), b, tramoRecorrido, tramoFlete)
  }

  /** `findOrCreateCliente(cliente)`, then the rest. */
  function ClienteStage(db: Db, b: Value, tramoRecorrido: Id, tramoFlete: Id): (Db, int)
  {
    var cliente := Prop(b, "cliente");
    if !cliente.Str? then (db, 500)
    else
      var (clienteId, c) := ClienteStep(db.clientes, cliente.s);
      FleteStage(db.(clientes := c), b, tramoRecorrido, tramoFlete, clienteId)
  }

  /** The stops are parsed, then `findOrCreateFlete`, then the rest. */
  function FleteStage(db: Db, b: Value, tramoRecorrido: Id, tramoFlete: Id, clienteId: Id): (Db, int)
  {
    match FleteArgs(b, clienteId, tramoFlete)
    case None => (db, 500)
    case Some(flete) =>
      var (fleteId, f) := FleteStep(db.fletes, flete);
      RecorridoStage(db.(fletes := f), b, tramoRecorrido, fleteId)
  }

  /** `addRecorrido`, the last mutation. */
  function RecorridoStage(db: Db, b: Value, tramoRecorrido: Id, fleteId: Id): (Db, int)
  {
    match RecorridoArgs(b, tramoRecorrido, fleteId)
    case None => (db, 500)
    case Some(rec) =>
      (db.(recorridos := Snap(db.recorridos.rows + [Row(db.recorridos.next, rec)], db.recorridos.next + 1)), 200)
  }

  lemma RecorridoStageSpec(db: Db, b: Value, tramoRecorrido: Id, fleteId: Id)
    requires DbValid(db)
    ensures var (db', status) := RecorridoStage(db, b, tramoRecorrido, fleteId);
      DbValid(db') && (status == 200 || status == 500)
      && db'.tramos == db.tramos && db'.clientes == db.clientes && db'.fletes == db.fletes
      && db.recorridos.rows <= db'.recorridos.rows
      && |db'.recorridos.rows| == |db.recorridos.rows| + (if status == 200 then 1 else 0)
      && (status == 200 ==> Newest(db'.recorridos).tramo == tramoRecorrido && Newest(db'.recorridos).flete == fleteId)
  {
  }

  lemma FleteStageSpec(db: Db, b: Value, tramoRecorrido: Id, tramoFlete: Id, clienteId: Id)
    requires DbValid(db)
    ensures var (db', status) := FleteStage(db, b, tramoRecorrido, tramoFlete, clienteId);
      DbValid(db') && (status == 200 || status == 500)
      && db'.tramos == db.tramos && db'.clientes == db.clientes
      && db.fletes.rows <= db'.fletes.rows && |db'.fletes.rows| <= |db.fletes.rows| + 1
      && db.recorridos.rows <= db'.recorridos.rows
      && |db'.recorridos.rows| == |db.recorridos.rows| + (if status == 200 then 1 else 0)
      && (status == 200 ==> (Newest(db'.recorridos).tramo == tramoRecorrido
          && Lookup(db'.fletes.rows, Newest(db'.recorridos).flete).Some?
          && Lookup(db'.fletes.rows, Newest(db'.recorridos).flete).value.tramo == tramoFlete))
  {
    match FleteArgs(b, clienteId, tramoFlete)
    case None =>
    case Some(flete) =>
      var key := Fletes.HasKey(flete.cartaPorte, flete.load, flete.tramo);
      FindOrInsertGrowth(db.fletes.rows, db.fletes.next, key, flete);
      FindOrInsertFinds(db.fletes.rows, db.fletes.next, key, flete);
      var (fleteId, f) := FleteStep(db.fletes, flete);
      RecorridoStageSpec(db.(fletes := f), b, tramoRecorrido, fleteId);
  }

  lemma ClienteStageSpec(db: Db, b: Value, tramoRecorrido: Id, tramoFlete: Id)
    requires DbValid(db)
    ensures var (db', status) := ClienteStage(db, b, tramoRecorrido, tramoFlete);
      DbValid(db') && (status == 200 || status == 500)
      && db'.tramos == db.tramos
      && db.clientes.rows <= db'.clientes.rows && |db'.clientes.rows| <= |db.clientes.rows| + 1
      && db.fletes.rows <= db'.fletes.rows && |db'.fletes.rows| <= |db.fletes.rows| + 1
      && db.recorridos.rows <= db'.recorridos.rows
      && |db'.recorridos.rows| == |db.recorridos.rows| + (if status == 200 then 1 else 0)
      && (status == 200 ==> (Newest(db'.recorridos).tramo == tramoRecorrido
          && Lookup(db'.fletes.rows, Newest(db'.recorridos).flete).Some?
          && Lookup(db'.fletes.rows, Newest(db'.recorridos).flete).value.tramo == tramoFlete))
  {
    var cliente := Prop(b, "cliente");
    if cliente.Str? {
      FindOrInsertGrowth(db.clientes.rows, db.clientes.next, Clientes.HasName(cliente.s), Clientes.Cliente(cliente.s, ""));
      var (clienteId, c) := ClienteStep(db.clientes, cliente.s);
      FleteStageSpec(db.(clientes := c), b, tramoRecorrido, tramoFlete, clienteId);
    }
  }

  /** The tramo with the given ends, when the table holds it. */
  predicate TramoHasEnds(tramos: seq<Row<Tramos.Tramo>>, id: Id, origen: string, destino: string)
  {
    Lookup(tramos, id).Some? && Lookup(tramos, id).value.origen == origen && Lookup(tramos, id).value.destino == destino
  }

  lemma TramoStepSpec(t: Snap<Tramos.Tramo>, origen: string, destino: string, keep: Id)
    requires SnapValid(t)
    ensures var (id, t') := TramoStep(t, origen, destino);
      SnapValid(t') && t.rows <= t'.rows && |t'.rows| <= |t.rows| + 1
      && TramoHasEnds(t'.rows, id, origen, destino)
      && (HasId(t.rows, keep) ==> Lookup(t'.rows, keep) == Lookup(t.rows, keep))
  {
    var p := Tramos.HasEnds(origen, destino);
    var doc := Tramos.NewTramo(origen, destino, 0);
    FindOrInsertGrowth(t.rows, t.next, p, doc);
    FindOrInsertFinds(t.rows, t.next, p, doc);
    if HasId(t.rows, keep) {
      FindOrInsertKeepsLookup(t.rows, t.next, p, doc, keep);
    }
  }

  lemma FleteTramoStageSpec(db: Db, b: Value, tramoRecorrido: Id)
    requires DbValid(db)
    ensures var (db', status) := FleteTramoStage(db, b, tramoRecorrido);
      DbValid(db') && (status == 200 || status == 500)
      && db.tramos.rows <= db'.tramos.rows && |db'.tramos.rows| <= |db.tramos.rows| + 1
      && db.clientes.rows <= db'.clientes.rows && |db'.clientes.rows| <= |db.clientes.rows| + 1
      && db.fletes.rows <= db'.fletes.rows && |db'.fletes.rows| <= |db.fletes.rows| + 1
      && db.recorridos.rows <= db'.recorridos.rows
      && |db'.recorridos.rows| == |db.recorridos.rows| + (if status == 200 then 1 else 0)
      && (status == 200 ==> (Newest(db'.recorridos).tramo == tramoRecorrido
          && (HasId(db.tramos.rows, tramoRecorrido) ==> Lookup(db'.tramos.rows, tramoRecorrido) == Lookup(db.tramos.rows, tramoRecorrido))
          && Lookup(db'.fletes.rows, Newest(db'.recorridos).flete).Some?
          && TramoHasEnds(db'.tramos.rows, Lookup(db'.fletes.rows, Newest(db'.recorridos).flete).value.tramo,
                          Prop(b, "origenFlete").s, Prop(b, "destinoFlete").s)))
  {
    var o := Prop(b, "origenFlete");
    var d := Prop(b, "destinoFlete");
    if o.Str? && d.Str? {
      TramoStepSpec(db.tramos, o.s, d.s, tramoRecorrido);
      var (tramoFlete, t2) := TramoStep(db.tramos, o.s, d.s);
      ClienteStageSpec(db.(tramos := t2), b, tramoRecorrido, tramoFlete);
    }
  }

  /**
   * What `/newRecorrido` may change: at most two tramos, one cliente and
   * one flete are added, and exactly one recorrido when the answer is 200
   * (none otherwise); documents already stored stay where they are. On
   * success the new recorrido points at the tramo with the recorrido's ends
   * and at a flete whose tramo has the flete's ends.
   */
  lemma NewRecorridoSpec(db: Db, body: Option<Value>)
    requires DbValid(db)
    ensures var (db', status) := NewRecorridoEffect(db, body);
      DbValid(db') && (status == 200 || status == 500)
      && db.tramos.rows <= db'.tramos.rows && |db'.tramos.rows| <= |db.tramos.rows| + 2
      && db.clientes.rows <= db'.clientes.rows && |db'.clientes.rows| <= |db.clientes.rows| + 1
      && db.fletes.rows <= db'.fletes.rows && |db'.fletes.rows| <= |db.fletes.rows| + 1
      && db.recorridos.rows <= db'.recorridos.rows
      && |db'.recorridos.rows| == |db.recorridos.rows| + (if status == 200 then 1 else 0)
      && (!Destructurable(body) ==> db' == db)
      && (status == 200 ==> (Destructurable(body)
          && TramoHasEnds(db'.tramos.rows, Newest(db'.recorridos).tramo,
                          Prop(body.value, "origenRecorrido").s, Prop(body.value, "destinoRecorrido").s)
          && Lookup(db'.fletes.rows, Newest(db'.recorridos).flete).Some?
          && TramoHasEnds(db'.tramos.rows, Lookup(db'.fletes.rows, Newest(db'.recorridos).flete).value.tramo,
                          Prop(body.value, "origenFlete").s, Prop(body.value, "destinoFlete").s)))
  {
    if Destructurable(body) {
      var b := body.value;
      var o := Prop(b, "origenRecorrido");
      var d := Prop(b, "destinoRecorrido");
      if o.Str? && d.Str? {
        var (tramoRecorrido, t1) := TramoStep(db.tramos, o.s, d.s);
        TramoStepSpec(db.tramos, o.s, d.s, tramoRecorrido);
        FleteTramoStageSpec(db.(tramos := t1), b, tramoRecorrido);
      }
    }
  }

  function DbOf(tramos: Table<Tramos.Tramo>, clientes: Table<Clientes.Cliente>,
                fletes: Table<Fletes.Flete>, recorridos: Table<Recorridos.Recorrido>): (db: Db)
    reads tramos, clientes, fletes, recorridos
    ensures DbValid(db) <==> tramos.Valid() && clientes.Valid() && fletes.Valid() && recorridos.Valid()
  {
    Db(tramos.Snapshot(), clientes.Snapshot(), fletes.Snapshot(), recorridos.Snapshot())
  }

  /**
   * `/newRecorrido`: runs the five mutations in order, stopping with 500 at
   * the first one whose arguments the validator refuses (or when `stops` has
   * no `split`), and answers 200 once the recorrido is inserted.
   */
  method NewRecorrido(tramos: Table<Tramos.Tramo>, clientes: Table<Clientes.Cliente>,
                      fletes: Table<Fletes.Flete>, recorridos: Table<Recorridos.Recorrido>,
                      body: Option<Value>)
    returns (status: int)
    requires tramos.Valid() && clientes.Valid() && fletes.Valid() && recorridos.Valid()
    modifies tramos, clientes, fletes, recorridos
    ensures tramos.Valid() && clientes.Valid() && fletes.Valid() && recorridos.Valid()
    ensures (DbOf(tramos, clientes, fletes, recorridos), status)
              == NewRecorridoEffect(old(DbOf(tramos, clientes, fletes, recorridos)), body)
  {
    if !Destructurable(body) {
      return 500;
    }
    status := RunRecorridoTramo(tramos, clientes, fletes, recorridos, body.value);
  }

  method RunRecorridoTramo(tramos: Table<Tramos.Tramo>, clientes: Table<Clientes.Cliente>,
                           fletes: Table<Fletes.Flete>, recorridos: Table<Recorridos.Recorrido>, b: Value)
    returns (status: int)
    requires tramos.Valid() && clientes.Valid() && fletes.Valid() && recorridos.Valid()
    modifies tramos, clientes, fletes, recorridos
    ensures tramos.Valid() && clientes.Valid() && fletes.Valid() && recorridos.Valid()
    ensures (DbOf(tramos, clientes, fletes, recorridos), status)
      == RecorridoTramoStage(old(DbOf(tramos, clientes, fletes, recorridos)), b)
  {
    var o := Prop(b, "origenRecorrido");
    var d := Prop(b, "destinoRecorrido");
    if !(o.Str? && d.Str?) {
      return 500;
    }
    var tramoRecorrido := Tramos.FindOrCreateTramo(tramos, o.s, d.s, None);
    status := RunFleteTramo(tramos, clientes, fletes, recorridos, b, tramoRecorrido);
  }

  method RunFleteTramo(tramos: Table<Tramos.Tramo>, clientes: Table<Clientes.Cliente>,
                       fletes: Table<Fletes.Flete>, recorridos: Table<Recorridos.Recorrido>, b: Value,
                       tramoRecorrido: Id)
    returns (status: int)
    requires tramos.Valid() && clientes.Valid() && fletes.Valid() && recorridos.Valid()
    modifies tramos, clientes, fletes, recorridos
    ensures tramos.Valid() && clientes.Valid() && fletes.Valid() && recorridos.Valid()
    ensures (DbOf(tramos, clientes, fletes, recorridos), status)
      == FleteTramoStage(old(DbOf(tramos, clientes, fletes, recorridos)), b, tramoRecorrido)
  {
    var o := Prop(b, "origenFlete");
    var d := Prop(b, "destinoFlete");
    if !(o.Str? && d.Str?) {
      return 500;
    }
    var tramoFlete := Tramos.FindOrCreateTramo(tramos, o.s, d.s, None);
    status := RunCliente(clientes, fletes, recorridos, b, tramoRecorrido, tramoFlete, tramos.Snapshot());
  }

  method RunCliente(clientes: Table<Clientes.Cliente>, fletes: Table<Fletes.Flete>,
                    recorridos: Table<Recorridos.Recorrido>, b: Value, tramoRecorrido: Id, tramoFlete: Id,
                    ghost t: Snap<Tramos.Tramo>)
    returns (status: int)
    requires clientes.Valid() && fletes.Valid() && recorridos.Valid()
    modifies clientes, fletes, recorridos
    ensures clientes.Valid() && fletes.Valid() && recorridos.Valid()
    ensures (Db(t, clientes.Snapshot(), fletes.Snapshot(), recorridos.Snapshot()), status)
      == ClienteStage(Db(t, old(clientes.Snapshot()), old(fletes.Snapshot()), old(recorridos.Snapshot())),
                      b, tramoRecorrido, tramoFlete)
  {
    var cliente := Prop(b, "cliente");
    if !cliente.Str? {
      return 500;
    }
    var clienteId := Clientes.FindOrCreateCliente(clientes, cliente.s);
    status := RunFlete(fletes, recorridos, b, tramoRecorrido, tramoFlete, clienteId, t, clientes.Snapshot());
  }

  method RunFlete(fletes: Table<Fletes.Flete>, recorridos: Table<Recorridos.Recorrido>, b: Value,
                  tramoRecorrido: Id, tramoFlete: Id, clienteId: Id,
                  ghost t: Snap<Tramos.Tramo>, ghost c: Snap<Clientes.Cliente>)
    returns (status: int)
    requires fletes.Valid() && recorridos.Valid()
    modifies fletes, recorridos
    ensures fletes.Valid() && recorridos.Valid()
    ensures (Db(t, c, fletes.Snapshot(), recorridos.Snapshot()), status)
      == FleteStage(Db(t, c, old(fletes.Snapshot()), old(recorridos.Snapshot())), b, tramoRecorrido, tramoFlete, clienteId)
  {
    var flete := FleteArgs(b, clienteId, tramoFlete);
    if flete.None? {
      return 500;
    }
    var fleteId := Fletes.FindOrCreateFlete(fletes, flete.value);
    status := RunRecorrido(recorridos, b, tramoRecorrido, fleteId, Db(t, c, fletes.Snapshot(), recorridos.Snapshot()));
  }

  method RunRecorrido(recorridos: Table<Recorridos.Recorrido>, b: Value, tramoRecorrido: Id, fleteId: Id, ghost db: Db)
    returns (status: int)
    requires recorridos.Valid() && db.recorridos == recorridos.Snapshot()
    modifies recorridos
    ensures recorridos.Valid()
    ensures (db.(recorridos := recorridos.Snapshot()), status) == RecorridoStage(db, b, tramoRecorrido, fleteId)
  {
    var recorrido := RecorridoArgs(b, tramoRecorrido, fleteId);
    if recorrido.None? {
      assert db.(recorridos := recorridos.Snapshot()) == db;
      return 500;
    }
    var _ := Recorridos.AddRecorrido(recorridos, recorrido.value);
    status := 200;
  }

  // ---------------------------------------------------------------------
  // DELETE /deleteRecorrido

  datatype DeleteOutcome =
    | DeleteFailed           // 500
    | MissingRecorrido       // 400
    | DeleteId(id: Id)       // 200 after `deleteRecorrido`

  /**
   * The `/deleteRecorrido` decision. `resolve` says which recorrido a
   * string names, as the id validator of `deleteRecorrido` does; a value it
   * refuses, or a truthy value that is not a string, makes the mutation
   * throw.
   */
  function DeleteRecorridoDecision(body: Option<Value>, resolve: string -> Option<Id>): (o: DeleteOutcome)
    ensures o.MissingRecorrido? <==> Destructurable(body) && !Truthy(Prop(body.value, "recorrido"))
    ensures o.DeleteId? <==> (Destructurable(body) && Prop(body.value, "recorrido").Str?
      && Prop(body.value, "recorrido").s != "" && resolve(Prop(body.value, "recorrido").s).Some?)
    ensures o.DeleteId? ==> o.id == resolve(Prop(body.value, "recorrido").s).value
  {
    if !Destructurable(body) then DeleteFailed
    else
      var recorrido := Prop(body.value, "recorrido");
      if !Truthy(recorrido) then MissingRecorrido
      else if recorrido.Str? && resolve(recorrido.s).Some? then DeleteId(resolve(recorrido.s).value)
      else DeleteFailed
  }

  /** `/deleteRecorrido`: deletes exactly when the answer is 200, and changes nothing otherwise. */
  method DeleteRecorridoRoute(recorridos: Table<Recorridos.Recorrido>, body: Option<Value>, resolve: string -> Option<Id>)
    returns (resp: Response)
    requires recorridos.Valid()
    modifies recorridos
    ensures recorridos.Valid()
    ensures recorridos.nextId == old(recorridos.nextId)
    ensures match DeleteRecorridoDecision(body, resolve)
      case DeleteFailed => resp.status == 500 && recorridos.rows == old(recorridos.rows)
      case MissingRecorrido => resp.status == 400 && recorridos.rows == old(recorridos.rows)
      case DeleteId(id) => resp.status == 200 && recorridos.rows == Without(old(recorridos.rows), id)
  {
    match DeleteRecorridoDecision(body, resolve)
    case DeleteFailed =>
      resp := Response(500, Obj([Field("error", Str("Failed to delete recorrido"))]));
    case MissingRecorrido =>
      resp := Response(400, Obj([Field("error", Str("Recorrido ID is required in request body"))]));
    case DeleteId(id) =>
      var _ := Recorridos.DeleteRecorrido(recorridos, id);
      resp := Response(200, Obj([Field("success", Bool(true)),
                                 Field("message", Str("Recorrido deleted successfully")),
                                 Field("deletedId", Prop(body.value, "recorrido"))]));
  }

  // ---------------------------------------------------------------------
  // POST /getRecorridosAnteriores

  /** `/getRecorridosAnteriores`: 200 with the unit's two newest recorridos and their details, 500 when `unidad` is not a string. */
  function GetRecorridosAnterioresRoute(recorridos: Table<Recorridos.Recorrido>, tramos: Table<Tramos.Tramo>,
                                        fletes: Table<Fletes.Flete>, body: Option<Value>)
    : (r: (int, Option<seq<Recorridos.RecorridoDetalle>>))
    reads recorridos, tramos, fletes
    requires recorridos.Valid()
    ensures r.0 == 200 <==> Destructurable(body) && Prop(body.value, "unidad").Str?
    ensures r.0 != 200 ==> r.0 == 500 && r.1 == None
    ensures r.0 == 200 ==> (r.1.Some? && |r.1.value| <= 2
      && forall k :: 0 <= k < |r.1.value| ==> r.1.value[k].recorrido.unidad == Prop(body.value, "unidad").s)
    ensures r.0 == 200 ==>
      r.1 == Some(Recorridos.GetRecorridosAnteriores(recorridos, tramos, fletes, Prop(body.value, "unidad").s))
  {
    if !Destructurable(body) then (500, None)
    else
      var unidad := Prop(body.value, "unidad");
      if !unidad.Str? then (500, None)
      else (200, Some(Recorridos.GetRecorridosAnteriores(recorridos, tramos, fletes, unidad.s)))
  }
}
