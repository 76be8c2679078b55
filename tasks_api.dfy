/**
 * The store of tasks (convex/internalAPI/tasks.ts): tasks listed newest
 * first, created with defaults, toggled and deleted in place.
 */
module TasksApi {
  import opened Wrappers
  import opened JsValues
  import opened Store

  /** A stored task: every field a task document may hold, absent fields as `None`/`Undefined`. */
  datatype Task = Task(
    camundaId: Option<string>,
    name: Option<string>,
    asignee: Option<string>,
    processInstanceId: Option<string>,
    businessKey: Option<string>,
    candidateUsers: Option<seq<string>>,
    candidateGroups: Option<seq<string>>,
    processDefinitionId: Option<string>,
    priority: Option<int>,
    formKey: Option<string>,
    formRef: Option<string>,
    taskDefinitionKey: Option<string>,
    variables: Value,
    isCompleted: Option<bool>,
    createdAt: Option<int>,
    permanent: Option<bool>,
    taskType: Option<string>,
    text: Option<string>,
    data: Option<bool>)

  /** The arguments `addTask` accepts: the fields of a task document in the schema, which include no type. */
  datatype TaskFields = TaskFields(
    camundaId: Option<string>,
    name: Option<string>,
    asignee: Option<string>,
    processInstanceId: Option<string>,
    businessKey: Option<string>,
    candidateUsers: Option<seq<string>>,
    candidateGroups: Option<seq<string>>,
    processDefinitionId: Option<string>,
    priority: Option<int>,
    formKey: Option<string>,
    formRef: Option<string>,
    taskDefinitionKey: Option<string>,
    variables: Value,
    isCompleted: Option<bool>,
    createdAt: Option<int>,
    permanent: Option<bool>)

  const Blank := Task(None, None, None, None, None, None, None, None, None, None, None, None,
                      Undefined, None, None, None, None, None, None)

  /** `s || fallback` for an optional string argument. */
  function OrDefault(s: Option<string>, fallback: string): string
  {
    if s.Some? && s.value != "" then s.value else fallback
  }

  /** The document `addTask` writes. */
  function NewTask(args: TaskFields, now: int): Task
  {
    Blank.(isCompleted := Some(false), createdAt := Some(now),
           asignee := Some(OrDefault(args.asignee, "general")),
           taskType := Some(OrDefault(None, "any")),
           variables := args.variables)
  }

  /**
   * The new task is open, stamped with `now`, typed "any", assigned to
   * the given assignee or "general" when none (or "") is given, and keeps
   * the variables; nothing else of the arguments reaches it.
   */
  lemma NewTaskDefaults(args: TaskFields, now: int)
    ensures NewTask(args, now).isCompleted == Some(false) && NewTask(args, now).createdAt == Some(now)
    ensures NewTask(args, now).taskType == Some("any")
    ensures NewTask(args, now).variables == args.variables
    ensures NewTask(args, now).asignee == Some("general") <==> args.asignee.None? || args.asignee.value in {"", "general"}
    ensures NewTask(args, now).camundaId.None? && NewTask(args, now).name.None? && NewTask(args, now).permanent.None?
  {
  }

  /** Two calls that agree on the assignee and the variables store the same task. */
  lemma NewTaskDependsOnlyOnAsigneeAndVariables(a: TaskFields, b: TaskFields, now: int)
    requires OrDefault(a.asignee, "general") == OrDefault(b.asignee, "general") && a.variables == b.variables
    ensures NewTask(a, now) == NewTask(b, now)
  {
  }

  /** `!task.isCompleted`: an absent flag reads as false, so it becomes true. */
  function Toggled(t: Task): Task
  {
    t.(isCompleted := Some(t.isCompleted != Some(true)))
  }

  /** Toggling flips the flag, and toggling twice restores that task exactly when the flag was set. */
  lemma ToggleTwice(t: Task)
    ensures Toggled(t).isCompleted.Some? && (Toggled(t).isCompleted.value <==> t.isCompleted != Some(true))
    ensures Toggled(Toggled(t)) == t <==> t.isCompleted.Some?
    ensures Toggled(t).(isCompleted := t.isCompleted) == t
  {
    if Toggled(Toggled(t)) == t {
      assert t.isCompleted == Toggled(Toggled(t)).isCompleted;
    }
    if t.isCompleted.Some? {
      if t.isCompleted.value {
        assert Toggled(t).isCompleted == Some(false);
      } else {
        assert Toggled(t).isCompleted == Some(true);
      }
      assert Toggled(Toggled(t)).isCompleted == t.isCompleted;
      assert Toggled(Toggled(t)) == t.(isCompleted := t.isCompleted);
    }
    assert t.(isCompleted := t.isCompleted) == t;
  }

  const TestTaskVariables := Obj([Field("type", Str("subirReporteMovimientos")),
                                  Field("testData", Str("This is a test task"))])

  function TestTask(now: int): Task
  {
    Blank.(taskType := Some("subirReporteMovimientos"), isCompleted := Some(false), createdAt := Some(now),
           asignee := Some("system"), variables := TestTaskVariables)
  }

  /** `getTasks`: every task, newest first. */
  function GetTasks(tasks: Table<Task>): (r: seq<Row<Task>>)
    reads tasks
    requires tasks.Valid()
    ensures |r| == |tasks.rows|
    ensures forall i, j :: 0 <= i < j < |r| ==> r[i].id > r[j].id
    ensures forall i :: 0 <= i < |r| ==> r[i] == tasks.rows[|r| - 1 - i]
  {
    Newest(tasks.rows)
  }

  /** `addTask`: inserts exactly one task, built by `NewTask`. */
  method AddTask(tasks: Table<Task>, args: TaskFields, now: int)
    requires tasks.Valid()
    modifies tasks
    ensures tasks.Valid()
    ensures tasks.rows == old(tasks.rows) + [Row(old(tasks.nextId), NewTask(args, now))]
    ensures tasks.nextId == old(tasks.nextId) + 1
  {
    var _ := tasks.Insert(NewTask(args, now));
  }

  /** `toggleTask`: flips the completion flag of an existing task; an unknown id changes nothing. */
  method ToggleTask(tasks: Table<Task>, id: Id)
    requires tasks.Valid()
    modifies tasks
    ensures tasks.Valid() && tasks.nextId == old(tasks.nextId)
    ensures match old(tasks.Get(id))
      case None => tasks.rows == old(tasks.rows)
      case Some(t) => tasks.rows == Replace(old(tasks.rows), id, Toggled(t))
  {
    var task := tasks.Get(id);
    if task.Some? {
      tasks.Put(id, Toggled(task.value));
    }
  }

  /** `deleteTask`. */
  method DeleteTask(tasks: Table<Task>, id: Id)
    requires tasks.Valid()
    modifies tasks
    ensures tasks.Valid()
    ensures tasks.nextId == old(tasks.nextId)
    ensures tasks.rows == Without(old(tasks.rows), id)
    ensures forall x :: tasks.Get(x) == if x == id then None else old(tasks.Get(x))
  {
    tasks.Delete(id);
  }

  /** `createTestTask`: inserts the fixed report-upload task assigned to "system". */
  method CreateTestTask(tasks: Table<Task>, now: int)
    requires tasks.Valid()
    modifies tasks
    ensures tasks.Valid()
    ensures tasks.rows == old(tasks.rows) + [Row(old(tasks.nextId), TestTask(now))]
    ensures tasks.nextId == old(tasks.nextId) + 1
  {
    var _ := tasks.Insert(TestTask(now));
  }
}
