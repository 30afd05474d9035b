/**
  The map of active tasks both renderer task stores keep, keyed by task id,
  and the store actions. The two stores run the same code over different task
  records, so the actions are defined once here, generic in the task type;
  `addTask` reads the task's own id through `idOf`. Every action builds a new
  map from the previous one (`new Map(old)`) and replaces the store's state
  with it; earlier snapshots are never changed, which immutable Dafny maps
  give by construction.
 */
module TaskStore {
  import opened Wrappers

  datatype Store<T> = Store(activeTasks: map<string, T>)

  /** The initial state, and the state `clearTasks` sets. */
  function Empty<T>(): (s: Store<T>)
    ensures s.activeTasks.Keys == {}
  {
    Store(map[])
  }

  /** `getTask(taskId)`: `activeTasks.get(taskId)`, undefined for an absent id. */
  function GetTask<T>(s: Store<T>, taskId: string): (r: Option<T>)
    ensures r.Some? <==> taskId in s.activeTasks
    ensures r.Some? ==> r.value == s.activeTasks[taskId]
  {
    if taskId in s.activeTasks then Some(s.activeTasks[taskId]) else None
  }

  /** `updateTask(taskId, task)`: a copy with `set(taskId, task)`, an upsert
      that replaces any earlier task under `taskId` and keeps every other
      entry. The store does not compare `taskId` with the task's own id. */
  function UpdateTask<T>(s: Store<T>, taskId: string, task: T): (r: Store<T>)
    ensures r.activeTasks.Keys == s.activeTasks.Keys + {taskId}
    ensures GetTask(r, taskId) == Some(task)
    ensures forall k :: k != taskId ==> GetTask(r, k) == GetTask(s, k)
  {
    Store(s.activeTasks[taskId := task])
  }

  /** `addTask(task)`: the task is filed under its own id. */
  function AddTask<T>(s: Store<T>, idOf: T -> string, task: T): (r: Store<T>)
    ensures r.activeTasks.Keys == s.activeTasks.Keys + {idOf(task)}
    ensures GetTask(r, idOf(task)) == Some(task)
    ensures forall k :: k != idOf(task) ==> GetTask(r, k) == GetTask(s, k)
  {
    Store(s.activeTasks[idOf(task) := task])
  }

  /** `removeTask(taskId)`: a copy with `delete(taskId)`; every other entry is
      kept. */
  function RemoveTask<T>(s: Store<T>, taskId: string): (r: Store<T>)
    ensures r.activeTasks.Keys == s.activeTasks.Keys - {taskId}
    ensures GetTask(r, taskId) == None
    ensures forall k :: k != taskId ==> GetTask(r, k) == GetTask(s, k)
  {
    Store(s.activeTasks - {taskId})
  }

  /** `clearTasks()`: a new empty map, whatever was there. */
  function ClearTasks<T>(s: Store<T>): (r: Store<T>)
    ensures forall k :: GetTask(r, k) == None
  {
    Empty()
  }

  /** The store is determined by what `getTask` answers. */
  lemma Extensionality<T>(a: Store<T>, b: Store<T>)
    requires forall k :: GetTask(a, k) == GetTask(b, k)
    ensures a == b
  {
    assert a.activeTasks.Keys == b.activeTasks.Keys by {
      forall k ensures k in a.activeTasks <==> k in b.activeTasks {
        assert GetTask(a, k).Some? <==> GetTask(b, k).Some?;
      }
    }
    forall k | k in a.activeTasks ensures a.activeTasks[k] == b.activeTasks[k] {
      assert GetTask(a, k) == GetTask(b, k);
    }
  }

  /** The last update under an id wins. */
  lemma UpdateTwice<T>(s: Store<T>, taskId: string, t1: T, t2: T)
    ensures UpdateTask(UpdateTask(s, taskId, t1), taskId, t2) == UpdateTask(s, taskId, t2)
  {
    Extensionality(UpdateTask(UpdateTask(s, taskId, t1), taskId, t2), UpdateTask(s, taskId, t2));
  }

  /** Updates under different ids commute. */
  lemma UpdatesCommute<T>(s: Store<T>, a: string, ta: T, b: string, tb: T)
    requires a != b
    ensures UpdateTask(UpdateTask(s, a, ta), b, tb) == UpdateTask(UpdateTask(s, b, tb), a, ta)
  {
    Extensionality(UpdateTask(UpdateTask(s, a, ta), b, tb), UpdateTask(UpdateTask(s, b, tb), a, ta));
  }

  /** Removing a task that was just added restores the store, when the id was
      free; removing twice is removing once. */
  lemma RemoveUndoesAdd<T>(s: Store<T>, idOf: T -> string, task: T)
    ensures idOf(task) !in s.activeTasks ==> RemoveTask(AddTask(s, idOf, task), idOf(task)) == s
    ensures RemoveTask(RemoveTask(s, idOf(task)), idOf(task)) == RemoveTask(s, idOf(task))
  {
    var id := idOf(task);
    Extensionality(RemoveTask(RemoveTask(s, id), id), RemoveTask(s, id));
    if id !in s.activeTasks {
      Extensionality(RemoveTask(AddTask(s, idOf, task), id), s);
    }
  }

  /** Adding a task is updating it under its own id. */
  lemma AddIsUpdateUnderOwnId<T>(s: Store<T>, idOf: T -> string, task: T)
    ensures AddTask(s, idOf, task) == UpdateTask(s, idOf(task), task)
  {
    Extensionality(AddTask(s, idOf, task), UpdateTask(s, idOf(task), task));
  }

  /** Updating under an id that differs from the task's own id files the task
      under the given id only: looking it up by its own id finds whatever was
      there before. */
  lemma UpdateUnderOtherId<T>(s: Store<T>, idOf: T -> string, taskId: string, task: T)
    requires idOf(task) != taskId
    ensures GetTask(UpdateTask(s, taskId, task), taskId) == Some(task)
    ensures GetTask(UpdateTask(s, taskId, task), idOf(task)) == GetTask(s, idOf(task))
  {
  }

  /** A task can be added, replaced by an updated copy under its own id (a
      progress report) without disturbing any other task, and removed, after
      which it is forgotten. */
  lemma Lifecycle<T>(s: Store<T>, idOf: T -> string, task: T, updated: T, other: string)
    requires other != idOf(task)
    ensures var s1 := AddTask(s, idOf, task);
            var s2 := UpdateTask(s1, idOf(task), updated);
            var s3 := RemoveTask(s2, idOf(task));
            && GetTask(s2, idOf(task)) == Some(updated)
            && GetTask(s2, other) == GetTask(s, other)
            && GetTask(s3, idOf(task)) == None
            && GetTask(s3, other) == GetTask(s, other)
  {
  }
}
