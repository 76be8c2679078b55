/**
 * The sidebar of src/app/app/_components/TaskSidebar.tsx: the tasks
 * split by completion into a pending and a completed list, only the first
 * five completed ones shown, and one permanent freight task always
 * offered.
 */
module TaskSidebar {
  import opened Wrappers
  import opened Seqs

  datatype SidebarTask = SidebarTask(id: string, taskType: string, isCompleted: bool, createdAt: int,
                                     asignee: Option<string>)

  function IsPending(t: SidebarTask): bool { !t.isCompleted }
  function IsDone(t: SidebarTask): bool { t.isCompleted }

  /** `tasks?.filter(task => !task.isCompleted) || []`; `None` while the query loads. */
  function Pending(tasks: Option<seq<SidebarTask>>): (r: seq<SidebarTask>)
    ensures tasks.None? ==> r == []
    ensures tasks.Some? ==> IsSubsequence(r, tasks.value) && forall t :: t in r <==> t in tasks.value && !t.isCompleted
  {
    if tasks.None? then [] else Filter(tasks.value, IsPending)
  }

  /** `tasks?.filter(task => task.isCompleted) || []`. */
  function Completed(tasks: Option<seq<SidebarTask>>): (r: seq<SidebarTask>)
    ensures tasks.None? ==> r == []
    ensures tasks.Some? ==> IsSubsequence(r, tasks.value) && forall t :: t in r <==> t in tasks.value && t.isCompleted
  {
    if tasks.None? then [] else Filter(tasks.value, IsDone)
  }

  /** A test and its negation split a list: the two filtered lists have as many elements as the list. */
  lemma {:induction false} FilterSplits(s: seq<SidebarTask>)
    ensures |Filter(s, IsPending)| + |Filter(s, IsDone)| == |s|
    decreases |s|
  {
    if |s| > 0 {
      FilterSplits(s[1..]);
    }
  }

  /** Pending and completed are disjoint, cover every task, and keep the tasks' order. */
  lemma Partition(tasks: Option<seq<SidebarTask>>)
    ensures forall t :: t in Pending(tasks) ==> t !in Completed(tasks)
    ensures tasks.Some? ==> |Pending(tasks)| + |Completed(tasks)| == |tasks.value|
    ensures tasks.Some? ==> forall t :: t in tasks.value ==> t in Pending(tasks) || t in Completed(tasks)
  {
    if tasks.Some? {
      FilterSplits(tasks.value);
    }
  }

  const CompletedShown: nat := 5

  /** `completedTasks.slice(0, 5)`: at most five, the first ones. */
  function ShownCompleted(tasks: Option<seq<SidebarTask>>): (r: seq<SidebarTask>)
    ensures |r| == if CompletedShown < |Completed(tasks)| then CompletedShown else |Completed(tasks)|
    ensures r == Completed(tasks)[..|r|]
    ensures |Completed(tasks)| <= CompletedShown ==> r == Completed(tasks)
  {
    var c := Completed(tasks);
    if |c| <= CompletedShown then c else c[..CompletedShown]
  }

  /** The empty state shows when both lists are empty. */
  predicate ShowsEmptyState(tasks: Option<seq<SidebarTask>>)
  {
    |Pending(tasks)| == 0 && |Completed(tasks)| == 0
  }

  /** The empty state shows exactly when there are no tasks, or none loaded yet. */
  lemma EmptyStateIff(tasks: Option<seq<SidebarTask>>)
    ensures ShowsEmptyState(tasks) <==> tasks.None? || |tasks.value| == 0
  {
    Partition(tasks);
  }

  /** The one permanent task, created at `now`. */
  function PermanentTasks(now: int): (r: seq<SidebarTask>)
    ensures |r| == 1 && r[0].id == "permanent-freight" && r[0].taskType == "freight" && !r[0].isCompleted
  {
    [SidebarTask("permanent-freight", "freight", false, now, Some("system"))]
  }

  /** `getTaskTitle`: the two known types by name, any other type as it is. */
  function TaskTitle(taskType: string): (r: string)
    ensures taskType == "subirReporteMovimientos" ==> r == "Subir Reporte de Movimientos"
    ensures taskType == "freight" ==> r == "Gestión de Fletes"
    ensures taskType != "subirReporteMovimientos" && taskType != "freight" ==> r == taskType
  {
    if taskType == "subirReporteMovimientos" then "Subir Reporte de Movimientos"
    else if taskType == "freight" then "Gestión de Fletes"
    else taskType
  }

  /** The permanent task is titled as freight management. */
  lemma PermanentTaskTitle(now: int)
    ensures TaskTitle(PermanentTasks(now)[0].taskType) == "Gestión de Fletes"
  {
  }
}
