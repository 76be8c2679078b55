/**
 * The older task mutations (convex/internalAPI/tasks/tasks.ts), which
 * store a text, a literal type and an optional data object.
 */
module LegacyTasksApi {
  import opened Wrappers
  import opened JsValues
  import opened Store
  import TasksApi

  /** The two type literals the validator admits. */
  datatype LegacyType = Any | CapturaDiesel

  function TypeName(t: LegacyType): string
  {
    match t
    case Any => "any"
    case CapturaDiesel => "capturaDiesel"
  }

  /** The document `addTask` writes: `data` is the optional `{ejemplo}` flag. */
  function NewLegacyTask(taskType: LegacyType, asignee: string, text: string, data: Option<bool>, now: int): TasksApi.Task
  {
    TasksApi.Blank.(text := Some(text), isCompleted := Some(false), createdAt := Some(now),
                    asignee := Some(asignee), taskType := Some(TypeName(taskType)), data := data)
  }

  /** The record keeps text, assignee, type and data as given, and starts open. */
  lemma NewLegacyTaskKeepsArguments(taskType: LegacyType, asignee: string, text: string, data: Option<bool>, now: int)
    ensures var t := NewLegacyTask(taskType, asignee, text, data, now);
      t.text == Some(text) && t.asignee == Some(asignee) && t.data == data
      && t.isCompleted == Some(false) && t.createdAt == Some(now)
      && t.taskType.Some? && t.taskType.value in {"any", "capturaDiesel"}
  {
  }

  /** The stored type name identifies the literal. */
  lemma TypeNameInjective(a: LegacyType, b: LegacyType)
    ensures TypeName(a) == TypeName(b) <==> a == b
  {
  }

  /** `getTasks`. */
  function GetTasks(tasks: Table<TasksApi.Task>): (r: seq<Row<TasksApi.Task>>)
    reads tasks
    requires tasks.Valid()
    ensures |r| == |tasks.rows|
    ensures forall i :: 0 <= i < |r| ==> r[i] == tasks.rows[|r| - 1 - i]
  {
    Newest(tasks.rows)
  }

  /** `addTask`: inserts exactly one task. */
  method AddTask(tasks: Table<TasksApi.Task>, taskType: LegacyType, asignee: string, text: string, data: Option<bool>, now: int)
    requires tasks.Valid()
    modifies tasks
    ensures tasks.Valid()
    ensures tasks.rows == old(tasks.rows) + [Row(old(tasks.nextId), NewLegacyTask(taskType, asignee, text, data, now))]
    ensures tasks.nextId == old(tasks.nextId) + 1
  {
    var _ := tasks.Insert(NewLegacyTask(taskType, asignee, text, data, now));
  }

  /** `toggleTask`: the same rule as the current task store. */
  method ToggleTask(tasks: Table<TasksApi.Task>, id: Id)
    requires tasks.Valid()
    modifies tasks
    ensures tasks.Valid()
    ensures tasks.nextId == old(tasks.nextId)
    ensures match old(tasks.Get(id))
      case None => tasks.rows == old(tasks.rows)
      case Some(t) => tasks.rows == Replace(old(tasks.rows), id, TasksApi.Toggled(t))
  {
    TasksApi.ToggleTask(tasks, id);
  }

  /** `deleteTask`. */
  method DeleteTask(tasks: Table<TasksApi.Task>, id: Id)
    requires tasks.Valid()
    modifies tasks
    ensures tasks.Valid()
    ensures tasks.nextId == old(tasks.nextId)
    ensures tasks.rows == Without(old(tasks.rows), id)
  {
    TasksApi.DeleteTask(tasks, id);
  }
}
