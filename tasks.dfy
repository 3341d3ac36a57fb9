/** The task tools (`TaskTools`): the task list, creation, update and completion. Every
    tool answers with a `{success, ...}` envelope. */
module Tasks {
  import opened Wrappers
  import opened Json
  import opened PyOps
  import opened Protocol
  import opened Client
  import opened Envelopes

  const TaskCreated := "Task created successfully"
  const TaskUpdated := "Task updated successfully"
  const TaskNotUpdated := "Failed to update task"
  const TaskCompleted := "Task completed successfully"
  const TaskNotCompleted := "Failed to complete task"

  /** `result[0].get("result", {}).get("task", {}).get("id") if result else None`: the id
      under `result.task.id` of the reply's first element. A missing level gives None; a
      level that is there but is not a dict has no `get`. */
  function CreatedTaskId(v: Json): (r: Result<Json>)
    ensures !Truthy(v) ==> r == Ok(JNull)
    ensures Truthy(v) && !v.JArr? ==> r.Err?
    ensures v.JArr? && v.items != [] && !v.items[0].JObj? ==> r.Err?
    ensures v.JArr? && v.items != [] && v.items[0].JObj? ==>
      var result := Lookup(v.items[0].fields, "result");
      (result.None? ==> r == Ok(JNull)) &&
      (result.Some? && !result.value.JObj? ==> r.Err?) &&
      (result.Some? && result.value.JObj? ==>
        var task := Lookup(result.value.fields, "task");
        (task.None? ==> r == Ok(JNull)) &&
        (task.Some? && !task.value.JObj? ==> r.Err?) &&
        (task.Some? && task.value.JObj? ==>
          r == Ok(if HasKey(task.value.fields, "id") then Lookup(task.value.fields, "id").value else JNull)))
  {
    if !Truthy(v) then Ok(JNull)
    else
      var first :- Index0(v);
      var result :- DictGet(first, "result", JObj([]));
      var task :- DictGet(result, "task", JObj([]));
      DictGet(task, "id", JNull)
  }

  /** The `create_task` answer. */
  function CreatedEnvelope(v: Json): (r: Result<Json>)
    ensures r.Ok? ==> IsEnvelope(r.value) && Succeeded(r.value)
    ensures r.Ok? <==> CreatedTaskId(v).Ok?
    ensures r.Ok? ==> r.value == Success([("task_id", CreatedTaskId(v).value), ("message", JStr(TaskCreated))])
  {
    var id :- CreatedTaskId(v);
    Ok(Success([("task_id", id), ("message", JStr(TaskCreated))]))
  }

  class TaskTools {
    const client: BitrixClient

    constructor(client: BitrixClient)
      ensures this.client == client
    {
      this.client := client;
    }

    /** `get_tasks`: the filter is parsed (None when not given), the field names are split
        on commas untrimmed (None when not given), every task is fetched through `get_all`
        and the list is cut to `limit`. */
    function GetTasks(t: Transport, loads: Loads, filterParams: Option<string>, selectFields: Option<string>,
                      limit: int): (out: Outcome)
      reads client
      ensures IsEnvelope(out.envelope)
      ensures var f := ParseOr(loads, filterParams, JNull);
        f.Err? ==> out == Outcome(None, Failure(f.error))
      ensures var f := ParseOr(loads, filterParams, JNull);
        f.Ok? ==> Sends(client, Request(GetAll, "tasks.task.list", Some(JObj(ListParams(f.value, FieldList(selectFields), JNull, 0)))), out)
      ensures var f := ParseOr(loads, filterParams, JNull);
        f.Ok? && client.connection.Some? ==>
          var req := Request(GetAll, "tasks.task.list", Some(JObj(ListParams(f.value, FieldList(selectFields), JNull, 0))));
          match t(req)
          case Raised(m) => out.envelope == Failure(m)
          case Returned(v) => out == Settle(Some(req), CountedList(v, "tasks", limit))
    {
      var filter := ParseOr(loads, filterParams, JNull);
      if filter.Err? then Outcome(None, Failure(filter.error))
      else
        client.Fetch(t, "tasks.task.list", ListParams(filter.value, FieldList(selectFields), JNull, 0))
          .Settled(v => CountedList(v, "tasks", limit))
    }

    /** `create_task`: the parsed fields go out under `fields`; `task_id` is read from the
        reply by `CreatedTaskId`. */
    function CreateTask(t: Transport, loads: Loads, fields: string): (out: Outcome)
      reads client
      ensures IsEnvelope(out.envelope)
      ensures loads(fields).Err? ==> out == Outcome(None, Failure(loads(fields).error))
      ensures loads(fields).Ok? ==>
        Sends(client, Request(Call, "tasks.task.add", Some(JObj([("fields", loads(fields).value)]))), out)
      ensures loads(fields).Ok? && client.connection.Some? ==>
        var req := Request(Call, "tasks.task.add", Some(JObj([("fields", loads(fields).value)])));
        match t(req)
        case Raised(m) => out.envelope == Failure(m)
        case Returned(v) => out == Settle(Some(req), CreatedEnvelope(v))
    {
      var parsed := loads(fields);
      if parsed.Err? then Outcome(None, Failure(parsed.error))
      else
        client.Invoke(t, Request(Call, "tasks.task.add", Some(JObj([("fields", parsed.value)])))).Settled(CreatedEnvelope)
    }

    /** `update_task`: `taskId` and the parsed fields go out; `success` is the truthiness of
        the reply's first element. */
    function UpdateTask(t: Transport, loads: Loads, taskId: string, fields: string): (out: Outcome)
      reads client
      ensures IsEnvelope(out.envelope)
      ensures loads(fields).Err? ==> out == Outcome(None, Failure(loads(fields).error))
      ensures loads(fields).Ok? ==> Sends(client, Request(Call, "tasks.task.update",
        Some(JObj([("taskId", JStr(taskId)), ("fields", loads(fields).value)]))), out)
      ensures loads(fields).Ok? && client.connection.Some? ==>
        match t(Request(Call, "tasks.task.update", Some(JObj([("taskId", JStr(taskId)), ("fields", loads(fields).value)]))))
        case Raised(m) => out.envelope == Failure(m)
        case Returned(v) => FirstTruthy(v).Ok? ==>
          out.envelope == Reported(FirstTruthy(v).value, [("task_id", JStr(taskId)),
            ("message", Pick(FirstTruthy(v).value, TaskUpdated, TaskNotUpdated))])
    {
      var parsed := loads(fields);
      if parsed.Err? then Outcome(None, Failure(parsed.error))
      else
        client.FlagOf(t, "tasks.task.update", JObj([("taskId", JStr(taskId)), ("fields", parsed.value)]))
          .Settled(flag => MutationEnvelope(flag, [("task_id", JStr(taskId))], TaskUpdated, TaskNotUpdated))
    }

    /** `complete_task`: only `taskId` goes out; `success` is the truthiness of the reply's
        first element. */
    function CompleteTask(t: Transport, taskId: string): (out: Outcome)
      reads client
      ensures IsEnvelope(out.envelope)
      ensures Sends(client, Request(Call, "tasks.task.complete", Some(JObj([("taskId", JStr(taskId))]))), out)
      ensures client.connection.Some? ==>
        match t(Request(Call, "tasks.task.complete", Some(JObj([("taskId", JStr(taskId))]))))
        case Raised(m) => out.envelope == Failure(m)
        case Returned(v) => FirstTruthy(v).Ok? ==>
          out.envelope == Reported(FirstTruthy(v).value, [("task_id", JStr(taskId)),
            ("message", Pick(FirstTruthy(v).value, TaskCompleted, TaskNotCompleted))])
    {
      client.FlagOf(t, "tasks.task.complete", JObj([("taskId", JStr(taskId))]))
        .Settled(flag => MutationEnvelope(flag, [("task_id", JStr(taskId))], TaskCompleted, TaskNotCompleted))
    }
  }
}
