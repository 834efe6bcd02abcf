/**
 * The in-memory task store (src/api/task_manager.py): one record per
 * background translation task, keyed by task id, updated in place.
 */
module TaskManagement {
  import opened Wrappers
  import opened Services

  /** The four task states. */
  datatype Status = Pending | Running | Completed | Failed

  /** A task id. `uuid.uuid4()` is modelled as a counter, so a new id is never one already issued. */
  type TaskId = nat

  /** The request a task was created for, as a plain dictionary. */
  type RequestData = map<string, string>

  /** A task record: its status, its result, its error message and the request it was created for. */
  datatype Task = Task(status: Status, result: Option<Translation>, error: Option<string>, requestData: RequestData)

  /** What a mutator reports: done, or the `KeyError` it raises for an unknown id. */
  datatype Outcome = Done | KeyError(taskId: TaskId)

  /** `request_data or {}`: a missing request is stored as the empty dictionary. */
  function RequestDataOrEmpty(requestData: Option<RequestData>): RequestData {
    match requestData
    case Some(d) => d
    case None => map[]
  }

  /** The record `create_task` stores. */
  function NewTask(requestData: Option<RequestData>): Task {
    Task(Pending, None, None, RequestDataOrEmpty(requestData))
  }

  /** The store after `set_status`: the task's status replaced, or the store unchanged for an unknown id. */
  function WithStatus(tasks: map<TaskId, Task>, taskId: TaskId, status: Status): map<TaskId, Task> {
    if taskId in tasks then tasks[taskId := tasks[taskId].(status := status)] else tasks
  }

  /** The store after `set_result`: the result stored, then the status set to completed. */
  function WithResult(tasks: map<TaskId, Task>, taskId: TaskId, result: Option<Translation>): map<TaskId, Task> {
    if taskId in tasks then WithStatus(tasks[taskId := tasks[taskId].(result := result)], taskId, Completed) else tasks
  }

  /** The store after `set_error`: the message stored, then the status set to failed. */
  function WithError(tasks: map<TaskId, Task>, taskId: TaskId, errorMessage: string): map<TaskId, Task> {
    if taskId in tasks then WithStatus(tasks[taskId := tasks[taskId].(error := Some(errorMessage))], taskId, Failed) else tasks
  }

  /** `get_task`: the record for a known id, None otherwise. */
  function Lookup(tasks: map<TaskId, Task>, taskId: TaskId): Option<Task> {
    if taskId in tasks then Some(tasks[taskId]) else None
  }

  class TaskManager {
    var tasks: map<TaskId, Task>
    var issued: nat

    /** Every stored id was issued before. */
    ghost predicate Valid()
      reads this
    {
      forall id :: id in tasks ==> id < issued
    }

    constructor()
      ensures Valid() && tasks == map[]
    {
      tasks := map[];
      issued := 0;
    }

    /** `create_task`: a new id, not in the store, mapped to a pending record. */
    method CreateTask(requestData: Option<RequestData>) returns (taskId: TaskId)
      requires Valid()
      modifies this
      ensures Valid()
      ensures taskId !in old(tasks)
      ensures tasks == old(tasks)[taskId := NewTask(requestData)]
    {
      taskId := issued;
      issued := issued + 1;
      tasks := tasks[taskId := Task(Pending, None, None, RequestDataOrEmpty(requestData))];
    }

    /** `set_status`. */
    method SetStatus(taskId: TaskId, status: Status) returns (outcome: Outcome)
      requires Valid()
      modifies this
      ensures Valid() && issued == old(issued)
      ensures tasks == WithStatus(old(tasks), taskId, status)
      ensures outcome == if taskId in old(tasks) then Done else KeyError(taskId)
    {
      if taskId in tasks {
        tasks := tasks[taskId := tasks[taskId].(status := status)];
        outcome := Done;
      } else {
        outcome := KeyError(taskId);
      }
    }

    /** `set_result`. */
    method SetResult(taskId: TaskId, result: Option<Translation>) returns (outcome: Outcome)
      requires Valid()
      modifies this
      ensures Valid() && issued == old(issued)
      ensures tasks == WithResult(old(tasks), taskId, result)
      ensures outcome == if taskId in old(tasks) then Done else KeyError(taskId)
    {
      if taskId in tasks {
        tasks := tasks[taskId := tasks[taskId].(result := result)];
        outcome := SetStatus(taskId, Completed);
      } else {
        outcome := KeyError(taskId);
      }
    }

    /** `set_error`. */
    method SetError(taskId: TaskId, errorMessage: string) returns (outcome: Outcome)
      requires Valid()
      modifies this
      ensures Valid() && issued == old(issued)
      ensures tasks == WithError(old(tasks), taskId, errorMessage)
      ensures outcome == if taskId in old(tasks) then Done else KeyError(taskId)
    {
      if taskId in tasks {
        tasks := tasks[taskId := tasks[taskId].(error := Some(errorMessage))];
        outcome := SetStatus(taskId, Failed);
      } else {
        outcome := KeyError(taskId);
      }
    }

    /** `get_task`: the stored record for a known id, None for an unknown one. */
    method GetTask(taskId: TaskId) returns (task: Option<Task>)
      ensures task.Some? <==> taskId in tasks
      ensures task.Some? ==> task.value == tasks[taskId]
    {
      if taskId in tasks {
        return Some(tasks[taskId]);
      }
      return None;
    }
  }

  /**
   * `set_status` on a known id changes that task's status and nothing else:
   * its other fields and every other task stay as they were. On an unknown id
   * the store is unchanged. No update removes or adds a task.
   */
  lemma WithStatusChangesOnlyStatus(tasks: map<TaskId, Task>, taskId: TaskId, status: Status)
    ensures WithStatus(tasks, taskId, status).Keys == tasks.Keys
    ensures taskId in tasks ==>
      var t := WithStatus(tasks, taskId, status)[taskId];
      t.status == status && t.result == tasks[taskId].result && t.error == tasks[taskId].error
      && t.requestData == tasks[taskId].requestData
    ensures forall id :: id in tasks && id != taskId ==> WithStatus(tasks, taskId, status)[id] == tasks[id]
    ensures taskId !in tasks ==> WithStatus(tasks, taskId, status) == tasks
  {
  }

  /**
   * `set_result` stores the result and marks the task completed, and
   * `set_error` stores the message and marks it failed; the request data and
   * every other task are kept, and an unknown id changes nothing.
   */
  lemma ResultAndErrorUpdates(tasks: map<TaskId, Task>, taskId: TaskId, result: Option<Translation>, errorMessage: string)
    ensures WithResult(tasks, taskId, result).Keys == tasks.Keys
    ensures WithError(tasks, taskId, errorMessage).Keys == tasks.Keys
    ensures taskId in tasks ==>
      && WithResult(tasks, taskId, result)[taskId] == tasks[taskId].(result := result, status := Completed)
      && WithError(tasks, taskId, errorMessage)[taskId] == tasks[taskId].(error := Some(errorMessage), status := Failed)
    ensures forall id :: id in tasks && id != taskId ==>
      WithResult(tasks, taskId, result)[id] == tasks[id] && WithError(tasks, taskId, errorMessage)[id] == tasks[id]
    ensures taskId !in tasks ==> WithResult(tasks, taskId, result) == tasks && WithError(tasks, taskId, errorMessage) == tasks
  {
  }

  /**
   * Status is overwritten unconditionally: a completed or failed task can be
   * set back to any status, and a failed task that later gets a result is
   * completed while still carrying its old error message.
   */
  lemma TerminalStatesNotEnforced(tasks: map<TaskId, Task>, taskId: TaskId, status: Status, result: Option<Translation>)
    requires taskId in tasks && tasks[taskId].status in {Completed, Failed}
    ensures WithStatus(tasks, taskId, status)[taskId].status == status
    ensures tasks[taskId].status == Failed ==>
      WithResult(tasks, taskId, result)[taskId].status == Completed
      && WithResult(tasks, taskId, result)[taskId].error == tasks[taskId].error
  {
  }

  /**
   * A created task is found with its pending record, and every other lookup
   * is as before; a task created and then given a result is found completed
   * with that result.
   */
  lemma CreateThenLookup(tasks: map<TaskId, Task>, taskId: TaskId, other: TaskId, requestData: Option<RequestData>,
                         result: Option<Translation>)
    requires taskId !in tasks
    ensures Lookup(tasks[taskId := NewTask(requestData)], taskId)
            == Some(Task(Pending, None, None, RequestDataOrEmpty(requestData)))
    ensures other != taskId ==> Lookup(tasks[taskId := NewTask(requestData)], other) == Lookup(tasks, other)
    ensures Lookup(WithResult(tasks[taskId := NewTask(requestData)], taskId, result), taskId)
            == Some(Task(Completed, result, None, RequestDataOrEmpty(requestData)))
    ensures requestData.None? || requestData == Some(map[]) ==>
      Lookup(tasks[taskId := NewTask(requestData)], taskId).value.requestData == map[]
  {
  }
}
