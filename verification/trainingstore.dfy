/**
  The store of running model-training tasks: a `TaskStore.Store` of `TrainingTask`
  records. `addTask` files a task under its own `task_id`; `updateTask` files
  it under the id it is given.
 */
module TrainingStore {
  import opened Wrappers
  import opened Json
  import opened TaskStore

  /** A training task; `progress` is a JavaScript number and `result` the
      worker's result object, both optional. */
  datatype TrainingTask = TrainingTask(
    task_id: string,
    is_running: bool,
    completed: bool,
    progress: Option<real>,
    result: Option<Json>)

  type State = Store<TrainingTask>

  /** The store's initial state: no active task. */
  const Initial: State := Empty()

  /** The id `addTask` files a task under. */
  function TaskId(task: TrainingTask): string {
    task.task_id
  }

  /** A progress report: `updateTask(task.task_id, {...task, progress})` files
      the updated copy under the task's id, leaves every other task alone, and
      a later `removeTask` forgets it. */
  lemma ProgressLifecycle(s: State, task: TrainingTask, p: real, other: string)
    requires other != task.task_id
    ensures var s1 := AddTask(s, TaskId, task);
            var s2 := UpdateTask(s1, task.task_id, task.(progress := Some(p)));
            var s3 := RemoveTask(s2, task.task_id);
            && GetTask(s2, task.task_id) == Some(task.(progress := Some(p)))
            && GetTask(s2, other) == GetTask(s, other)
            && GetTask(s3, task.task_id) == None
            && GetTask(s3, other) == GetTask(s, other)
  {
    Lifecycle(s, TaskId, task, task.(progress := Some(p)), other);
  }
}
