/**
  The store of running detection tasks: a `TaskStore.Store` of `DetectionTask`
  records. `addTask` files a task under its own `task_id`; `updateTask` files
  it under the id it is given.
 */
module DetectionStore {
  import opened Wrappers
  import opened Json
  import opened TaskStore

  /** A detection task; `progress` is a JavaScript number and `result` the
      worker's result object, both optional. */
  datatype DetectionTask = DetectionTask(
    task_id: string,
    input_path: string,
    is_running: bool,
    completed: bool,
    progress: Option<real>,
    result: Option<Json>)

  type State = Store<DetectionTask>

  /** The store's initial state: no active task. */
  const Initial: State := Empty()

  /** The id `addTask` files a task under. */
  function TaskId(task: DetectionTask): string {
    task.task_id
  }

  /** A progress report: `updateTask(task.task_id, {...task, progress})` files
      the updated copy under the task's id, leaves every other task alone, and
      a later `removeTask` forgets it. */
  lemma ProgressLifecycle(s: State, task: DetectionTask, p: real, other: string)
    requires other != task.task_id
    ensures var s1 := AddTask(s, TaskId, task);
            var s2 := UpdateTask(s1, task.task_id, task.(progress := Some(p)));
            var s3 := RemoveTask(s2, task.task_id);
            && GetTask(s2, task.task_id) == Some(task.(progress := Some(p)))
            && GetTask(s2, other) == GetTask(s, other)
            && GetTask(s3, task.task_id) == None
            && GetTask(s3, other) == GetTask(s, other)
  {
    Lifecycle(s, TaskId, task, task.(progress := Some(p)), other);
  }
}
